/** Blocking, ticks and resumption, and what holds in every reachable scheduler state. */
module KernelRuns {
  import opened Arith
  import opened SeqLists
  import opened TickTime
  import opened RoundRobin
  import opened Kernel
  import opened Scheduler
  import opened KernelInvariant
  import opened KernelTicks
  import opened KernelSteps
  import opened KernelCalls

  // ---- Blocking ----

  /** The wrapped wake time, compared with the tick count, tells the epoch of the true one. */
  lemma WakeEpoch(tick: nat, ticks: nat, m: Modulus)
    requires tick < m && ticks < m
    ensures Wrap(tick + ticks, m) == if tick + ticks < m then tick + ticks else tick + ticks - m
  {
    AddWithin(tick, ticks, m);
    DivModUnique(tick, 0, tick, m);
  }

  /** What a state looks like after its running task has left the ready list. */
  ghost predicate LeftReady(s: State, r: State) {
    var t := s.current;
    && Settled(r) && Changed(s.tcbs, r.tcbs, t)
    && r == s.(tcbs := r.tcbs, lists := r.lists, bitmap := r.bitmap, nextUnblock := r.nextUnblock)
    && (r.tcbs[t].container == Suspended || r.tcbs[t].container.Timed?)
    && var b := r.tcbs[t]; b == s.tcbs[t].(container := b.container, wake := b.wake, due := b.due)
  }

  lemma DelayForever(s: State)
    requires Settled(s) && s.current != s.idle && s.tcbs[s.current].container.Ready?
    ensures var r := AddToDelayed(s, s.modulus - 1, true);
      LeftReady(s, r) && r.tcbs[s.current].container == Suspended && r.nextUnblock == s.nextUnblock
  {
    hide Linked, EventsAgree, InWakeOrder, BitsAgree, NoLoose, UnlinkReset, Detached, Append;
    UnlinkFields(s, s.current);
    Detach(s, s.current);
    JoinSuspended(UnlinkReset(s, s.current), s.current);
    AppendFields(UnlinkReset(s, s.current), s.current, Suspended);
  }

  /** The item goes to the list of the epoch in which the true wake time, now + n, falls. */
  lemma DelayUntilDue(s: State, n: nat)
    requires Settled(s) && s.current != s.idle && s.tcbs[s.current].container.Ready?
    requires n < s.modulus && s.tick < s.modulus
    ensures n != s.modulus - 1 ==> AddToDelayed(s, n, true) == AddToDelayed(s, n, false)
    ensures var r := AddToDelayed(s, n, false);
      && LeftReady(s, r) && r.nextUnblock <= s.nextUnblock
      && var b := r.tcbs[s.current];
         && b.due == s.now + n
         && if s.tick + n < s.modulus
            then b.wake == s.tick + n && b.container == Timed(s.second) && r.nextUnblock <= b.wake
            else b.wake == s.tick + n - s.modulus && b.container == Timed(!s.second)
  {
    hide Settled, AddToDelayed, DelayedAt, Wrap;
    WakeEpoch(s.tick, n, s.modulus);
    CurrentIsTask(s);
    DelayCases(s, n);
    var wake := Wrap(s.tick + n, s.modulus);
    if wake < s.tick {
      InsertDue(s, s.current, wake, s.now + n, s.nextUnblock, !s.second);
    } else {
      InsertDue(s, s.current, wake, s.now + n, if wake < s.nextUnblock then wake else s.nextUnblock, s.second);
    }
  }

  lemma CurrentIsTask(s: State)
    requires Settled(s)
    ensures s.current in s.tcbs
  {
  }

  /** The state after taking t out and putting it into a delayed list. */
  function DelayedAt(s: State, t: Task, wake: nat, due: nat, next: nat, second: bool): State
    requires t in s.tcbs
  {
    var s1 := UnlinkReset(s, t);
    InsertByWake(With(s1, t, s1.tcbs[t].(wake := wake, due := due)).(nextUnblock := next), t, Timed(second))
  }

  lemma DelayCases(s: State, n: nat)
    requires s.current in s.tcbs
    ensures n != s.modulus - 1 ==> AddToDelayed(s, n, true) == AddToDelayed(s, n, false)
    ensures var wake := Wrap(s.tick + n, s.modulus);
      AddToDelayed(s, n, false) ==
        if wake < s.tick then DelayedAt(s, s.current, wake, s.now + n, s.nextUnblock, !s.second)
        else DelayedAt(s, s.current, wake, s.now + n, if wake < s.nextUnblock then wake else s.nextUnblock, s.second)
  {
    hide Wrap, InsertByWake;
  }

  lemma InsertDue(s: State, t: Task, wake: nat, due: nat, next: nat, second: bool)
    requires Settled(s) && t in s.tcbs && t != s.idle && s.tcbs[t].container.Ready?
    ensures var r := DelayedAt(s, t, wake, due, next, second);
      && Settled(r) && r == s.(tcbs := r.tcbs, lists := r.lists, bitmap := r.bitmap, nextUnblock := next)
      && r.tcbs == s.tcbs[t := s.tcbs[t].(container := Timed(second), wake := wake, due := due)]
  {
    hide Linked, EventsAgree, InWakeOrder, BitsAgree, NoLoose, UnlinkReset, Detached, InsertByWake;
    UnlinkFields(s, t);
    Detach(s, t);
    LevelBound(s, t);
    var s1 := UnlinkReset(s, t);
    var b := s1.tcbs[t].(wake := wake, due := due);
    DetachedWith(s1, t, b);
    var s2 := With(s1, t, b);
    DetachedUnblock(s2, t, next);
    JoinTimed(s2.(nextUnblock := next), t, second);
    InsertFields(s2.(nextUnblock := next), t, Timed(second));
  }

  lemma DetachedUnblock(s: State, t: Task, next: nat)
    requires Detached(s, t)
    ensures Detached(s.(nextUnblock := next), t)
  {
  }

  lemma DelayTimes(s: State, n: nat, indefinitely: bool)
    requires Settled(s) && s.current != s.idle && s.tcbs[s.current].container.Ready? && 0 < n < s.modulus
    requires Times(s, s.now + 1)
    ensures var r := AddToDelayed(s, n, indefinitely); LeftReady(s, r) && Times(r, s.now + 1)
  {
    hide Linked, EventsAgree, InWakeOrder, BitsAgree, NoLoose, AddToDelayed;
    if indefinitely && n == s.modulus - 1 {
      DelayForever(s);
    } else {
      DelayUntilDue(s, n);
    }
    var r := AddToDelayed(s, n, indefinitely);
    forall t | t in r.tcbs ensures Timely(r.tcbs[t], r.modulus, r.tick, r.now, r.second, r.nextUnblock, r.now + 1) {
      assert Timely(s.tcbs[t], s.modulus, s.tick, s.now, s.second, s.nextUnblock, s.now + 1);
    }
  }

  lemma BlockKeeps(s: State, n: nat, indefinitely: bool, kind: BlockKind)
    requires Invariant(s) && Enabled(s, BlockFor(n, indefinitely, kind))
    ensures Invariant(Block(s, n, indefinitely, kind))
  {
    hide Linked, InWakeOrder, BitsAgree, NoLoose, TimesAgree, EventsAgree, AddToDelayed;
    DelayTimes(s, n, indefinitely);
    var r := AddToDelayed(s, n, indefinitely);
    assert Invariant(r);
    match kind
    case Delay =>
    case OnEvent => EventListKeeps(r, s.current);
    case OnNotify => NotifyStateKeeps(r, s.current, Waiting);
  }

  lemma EventListKeeps(s: State, t: Task)
    requires Invariant(s) && Live(s, t) && !s.tcbs[t].container.Ready? && s.tcbs[t].event == Free
    ensures Invariant(With(s, t, s.tcbs[t].(event := OnObject)))
  {
    hide Linked, InWakeOrder, BitsAgree, TimesAgree;
    var b := s.tcbs[t].(event := OnObject);
    SameWakes(s, t, b);
    SameLinks(s.tcbs, s.lists, s.levels, t, b);
    SameTimes(s, With(s, t, b));
    assert s.tcbs.Keys == s.tcbs[t := b].Keys;
  }

  // ---- Ticks and resumption ----

  lemma TickKeeps(s: State)
    requires Invariant(s) && Enabled(s, TickOccurs)
    ensures Invariant(TickInterrupt(s))
  {
    hide Linked, EventsAgree, InWakeOrder, BitsAgree, NoLoose, TimesAgree, TopRuns, CountTick, WokenUntil;
    if s.suspended > 0 {
      DivModUnique(s.pendedTicks + 1, 0, s.pendedTicks + 1, s.modulus);
    } else {
      var s0 := s.(interrupts := s.interrupts + 1);
      CountTickWakes(s0);
      if s.yieldPending || TopRuns(s.tcbs, s.current) {
        CountTickTop(s0);
      }
    }
  }

  /** A tick that occurs while the scheduler is suspended is lost exactly when the count of them wraps. */
  lemma PendedTickIsKept(s: State)
    requires Invariant(s) && s.suspended > 0
    ensures var r := TickInterrupt(s);
      r.interrupts == r.now + r.pendedTicks <==> s.pendedTicks + 1 < s.modulus
  {
    hide Linked, EventsAgree, InWakeOrder, BitsAgree, NoLoose, TimesAgree, TopRuns;
    if s.pendedTicks + 1 < s.modulus {
      DivModUnique(s.pendedTicks + 1, 0, s.pendedTicks + 1, s.modulus);
    } else {
      DivModUnique(s.pendedTicks + 1, 1, 0, s.modulus);
    }
  }

  /** Moving the pending tasks to the ready lists. */
  lemma {:induction false} MovePendingKeeps(s: State)
    requires Settled(s) && Times(s, s.now + 1)
    ensures var r := MovePending(s);
      && Settled(r) && Times(r, s.now + 1) && r.pending == [] && Quiet(s, r) && r.nextUnblock == s.nextUnblock
      && (s.yieldPending || s.switchRequested || TopRuns(s.tcbs, s.current) ==>
            r.yieldPending || r.switchRequested || TopRuns(r.tcbs, r.current))
    decreases |s.pending|
  {
    hide Linked, InWakeOrder, BitsAgree, NoLoose, TimesAgree, TopRuns, Wake;
    if s.pending != [] {
      var t := s.pending[0];
      assert t in s.pending;
      WakeTcbs(s, t);
      WakeSettled(s, t);
      WakeTimes(s, t, s.now + 1);
      WithoutMembers(s.pending, t);
      if TopRuns(s.tcbs, s.current) && Priority(s, t) < Priority(s, s.current) {
        WakeTop(s, t);
      }
      MovePendingKeeps(
        if Priority(s, t) >= Priority(s, s.current) then Wake(s, t).(yieldPending := true) else Wake(s, t));
    }
  }

  lemma ResumeAllKeeps(s: State)
    requires Invariant(s) && s.suspended > 0
    ensures Invariant(ResumeAll(s))
  {
    hide Linked, EventsAgree, InWakeOrder, BitsAgree, NoLoose, TimesAgree, TopRuns, MovePending, Replay,
         ResetNextUnblock, WokenUntil;
    var s0 := s.(suspended := s.suspended - 1);
    if s0.suspended == 0 {
      MovePendingKeeps(s0);
      var s1 := MovePending(s0);
      ResetKeepsTimes(s1, s1);
      ResetFields(s1);
      var s2 := if s0.pending == [] then s1 else ResetNextUnblock(s1);
      ReplaySettled(s2, s2.pendedTicks);
      if s2.yieldPending || TopRuns(s2.tcbs, s2.current) {
        ReplayTop(s2, s2.pendedTicks);
      }
    }
  }

  // ---- Runs ----

  lemma StepKeeps(s: State, c: Call)
    requires Invariant(s) && Enabled(s, c)
    ensures Invariant(Perform(s, c))
  {
    hide Linked, EventsAgree, InWakeOrder, BitsAgree, NoLoose, TimesAgree, TopRuns,
         Create, Delete, CleanUp, Block, TickInterrupt, ResumeAll, SwitchContext, Notify, NotifyFromISR,
         RemoveFromEvent, RemoveFromUnordered, SuspendTask, ResumeTask, ResumeFromISR, AbortDelay, PrioritySet;
    match c
    case CreateTask(t, p) => CreateKeeps(s, t, p);
    case DeleteTask(t) => if t == s.current { DeleteSelfKeeps(s, t); } else { DeleteOtherKeeps(s, t); }
    case CleanUpOne => CleanUpKeeps(s);
    case BlockFor(n, indefinitely, kind) => BlockKeeps(s, n, indefinitely, kind);
    case TickOccurs => TickKeeps(s);
    case ResumeScheduler => ResumeAllKeeps(s);
    case ContextSwitch => ScanIsHighest(s); SwitchKeeps(s);
    case Notified(t) => NotifyKeeps(s, t);
    case NotifiedFromISR(t) => NotifyKeeps(s, t);
    case ClearNotification => NotifyStateKeeps(s, s.current, NotWaiting);
    case EventOccurs(t) => EventKeeps(s, t);
    case UnorderedEventOccurs(t) => EventKeeps(s, t);
    case SuspendOne(t) => SuspendKeeps(s, t);
    case ResumeOne(t) => ResumeKeeps(s, t);
    case ResumeOneFromISR(t) => ResumeKeeps(s, t);
    case Abort(t) => AbortKeeps(s, t);
    case SetPriority(t, p) => PriorityKeeps(s, t, p);
    case _ =>
  }

  ghost predicate Possible(s: State, calls: seq<Call>)
    requires Invariant(s)
    decreases |calls|
  {
    calls == [] || (Enabled(s, calls[0]) && (StepKeeps(s, calls[0]); Possible(Perform(s, calls[0]), calls[1..])))
  }

  ghost function Run(s: State, calls: seq<Call>): (r: State)
    requires Invariant(s) && Possible(s, calls)
    ensures Invariant(r)
    decreases |calls|
  {
    if calls == [] then s else
      StepKeeps(s, calls[0]);
      Run(Perform(s, calls[0]), calls[1..])
  }

  /** The state vTaskStartScheduler leaves: the idle task alone, ready and running. */
  function Boot(modulus: Modulus, levels: nat, idle: Task): State
    requires levels > 0
  {
    State(modulus, levels,
          map[idle := Tcb(0, Ready(0), 0, 0, Free, NotWaiting)], map[Ready(0) := Walk([idle], 0)], [],
          idle, idle, 0, 0, 0, 0, false, modulus - 1, 0, false, false, 0, {0}, 1, 0)
  }

  lemma BootInvariant(modulus: Modulus, levels: nat, idle: Task)
    requires levels > 0
    ensures Invariant(Boot(modulus, levels, idle))
  {
    DivModUnique(0, 0, 0, modulus);
    var s := Boot(modulus, levels, idle);
    forall l ensures Of(s.lists, l).items == if l == Ready(0) then [idle] else [] {
    }
  }

  /** In every run, a task outranking the running one means a context switch is pending or requested. */
  lemma NoMissedPreemption(modulus: Modulus, levels: nat, idle: Task, calls: seq<Call>, t: Task)
    requires levels > 0
    requires (BootInvariant(modulus, levels, idle); Possible(Boot(modulus, levels, idle), calls))
    ensures var s := (BootInvariant(modulus, levels, idle); Run(Boot(modulus, levels, idle), calls));
      t in s.tcbs && s.tcbs[t].container.Ready? && Priority(s, t) > Priority(s, s.current) ==>
        s.yieldPending || s.switchRequested
  {
    hide Linked, EventsAgree, InWakeOrder, BitsAgree, NoLoose, TimesAgree;
    BootInvariant(modulus, levels, idle);
  }

  /** Every tick interrupt has been counted, or is among the pended ones; none are pended while the scheduler runs. */
  lemma NoTickIsLost(modulus: Modulus, levels: nat, idle: Task, calls: seq<Call>)
    requires levels > 0
    requires (BootInvariant(modulus, levels, idle); Possible(Boot(modulus, levels, idle), calls))
    ensures var s := (BootInvariant(modulus, levels, idle); Run(Boot(modulus, levels, idle), calls));
      s.interrupts == s.now + s.pendedTicks && (s.suspended == 0 ==> s.pendedTicks == 0 && s.pending == [])
  {
    hide Linked, EventsAgree, InWakeOrder, BitsAgree, NoLoose, TimesAgree, TopRuns;
    BootInvariant(modulus, levels, idle);
  }

  /** The switch such a request leads to runs a ready task that no ready task outranks. */
  lemma SwitchRunsTheHighest(s: State)
    requires Invariant(s) && s.suspended == 0
    ensures var r := Perform(s, ContextSwitch);
      && r.current in r.tcbs && r.tcbs[r.current].container.Ready? && !r.yieldPending && !r.switchRequested
      && forall t :: t in r.tcbs && r.tcbs[t].container.Ready? ==> Priority(r, t) <= Priority(r, r.current)
  {
    hide Linked, EventsAgree, InWakeOrder, BitsAgree, NoLoose, TimesAgree;
    ScanIsHighest(s);
    SwitchKeeps(s);
  }
}
