/** Exact wake-up times over whole runs, and the partition of the tasks over the lists. */
module KernelWakeUp {
  import opened Arith
  import opened TickTime
  import opened SeqLists
  import opened RoundRobin
  import opened Kernel
  import opened Scheduler
  import opened KernelInvariant
  import opened KernelTicks
  import opened KernelSteps
  import opened KernelCalls
  import opened KernelRuns

  /** Blocked until the unbounded time `due`, and not in the pending list. */
  ghost predicate Asleep(s: State, t: Task, due: nat) {
    t in s.tcbs && s.tcbs[t].container.Timed? && s.tcbs[t].due == due && s.tcbs[t].event != OnPending
  }

  /** The calls that end t's block early: an event, a notification, an abort, a suspension, a deletion. */
  predicate Disturbs(c: Call, t: Task) {
    match c
    case DeleteTask(u) => u == t
    case Notified(u) => u == t
    case NotifiedFromISR(u) => u == t
    case EventOccurs(u) => u == t
    case UnorderedEventOccurs(u) => u == t
    case SuspendOne(u) => u == t
    case Abort(u) => u == t
    case _ => false
  }

  /** Either nothing happened to t, or time has reached `due` and t is ready. */
  ghost predicate SleepsOrWakes(r: State, t: Task, due: nat) {
    if r.now < due then Asleep(r, t, due) else t in r.tcbs && r.tcbs[t].container.Ready?
  }

  lemma {:induction false} MovePendingSleeps(s: State, t: Task, due: nat)
    requires Core(s) && Asleep(s, t, due)
    ensures Asleep(MovePending(s), t, due) && MovePending(s).now == s.now
    decreases |s.pending|
  {
    hide Linked, InWakeOrder, BitsAgree, Wake;
    if s.pending != [] {
      var u := s.pending[0];
      assert u in s.pending;
      WakeCore(s, u);
      WakeTcbs(s, u);
      WithoutMembers(s.pending, u);
      var s1 := Wake(s, u);
      MovePendingSleeps(if Priority(s, u) >= Priority(s, s.current) then s1.(yieldPending := true) else s1, t, due);
    }
  }

  lemma TickWakesExactly(s: State, t: Task, due: nat)
    requires Invariant(s) && Asleep(s, t, due)
    ensures SleepsOrWakes(TickInterrupt(s), t, due)
  {
    hide Linked, EventsAgree, InWakeOrder, BitsAgree, NoLoose, TimesAgree, TopRuns, CountTick;
    StillDue(s, t);
    if s.suspended == 0 {
      CountTickWakes(s.(interrupts := s.interrupts + 1));
    }
  }

  /** A timed task's unbounded wake time is still to come. */
  lemma StillDue(s: State, t: Task)
    requires Invariant(s) && t in s.tcbs && s.tcbs[t].container.Timed?
    ensures s.now < s.tcbs[t].due
  {
    hide Linked, EventsAgree, InWakeOrder, BitsAgree, NoLoose, TopRuns;
    assert Timely(s.tcbs[t], s.modulus, s.tick, s.now, s.second, s.nextUnblock, s.now + 1);
  }

  lemma ResumeAllWakesExactly(s: State, t: Task, due: nat)
    requires Invariant(s) && s.suspended > 0 && Asleep(s, t, due)
    ensures SleepsOrWakes(ResumeAll(s), t, due)
  {
    hide Linked, EventsAgree, InWakeOrder, BitsAgree, NoLoose, TimesAgree, TopRuns, MovePending, Replay,
         ResetNextUnblock;
    StillDue(s, t);
    var s0 := s.(suspended := s.suspended - 1);
    if s0.suspended == 0 {
      MovePendingKeeps(s0);
      MovePendingSleeps(s0, t, due);
      var s1 := MovePending(s0);
      ResetKeepsTimes(s1, s1);
      ResetFields(s1);
      var s2 := if s0.pending == [] then s1 else ResetNextUnblock(s1);
      ReplaySettled(s2, s2.pendedTicks);
      ReplayWakes(s2, s2.pendedTicks);
    }
  }

  /** Time stands still, and no control block but u's is affected. */
  ghost predicate Spares(s: State, r: State, u: Task) {
    r.now == s.now && forall t :: t in s.tcbs && t != u ==> t in r.tcbs && r.tcbs[t] == s.tcbs[t]
  }

  /** The one task a call is about. */
  function Subject(s: State, c: Call): Task {
    match c
    case CleanUpOne => var l := Of(s.lists, Terminating).items; if l == [] then s.current else l[0]
    case BlockFor(_, _, _) => s.current
    case TickOccurs => s.current
    case SuspendScheduler => s.current
    case ResumeScheduler => s.current
    case CatchUp(_) => s.current
    case ContextSwitch => s.current
    case Yield => s.current
    case ClearNotification => s.current
    case _ => c.task
  }

  lemma WakeSpares(s: State, u: Task)
    requires u in s.tcbs
    ensures Spares(s, Wake(s, u), u)
    ensures Spares(s, Wake(With(s, u, s.tcbs[u].(notify := Received)), u), u)
  {
    hide Wake;
    WakeTcbs(s, u);
    WakeTcbs(With(s, u, s.tcbs[u].(notify := Received)), u);
  }

  lemma CreateSpares(s: State, u: Task, p: nat)
    requires u !in s.tcbs
    ensures Spares(s, Create(s, u, p), u)
  {
    hide Readied;
    ReadiedFields(With(s, u, Tcb(p, Nowhere, 0, 0, Free, NotWaiting)).(total := s.total + 1), u);
  }

  lemma DeleteSpares(s: State, u: Task)
    requires Settled(s) && Live(s, u)
    ensures Spares(s, Delete(s, u), u)
  {
    hide Settled, UnlinkReset, ClearEvent, Append, ResetNextUnblock, Detached;
    TakeOut(s, u);
    var s1 := ClearEvent(UnlinkReset(s, u), u);
    if u == s.current {
      AppendFields(s1, u, Terminating);
    } else {
      ResetFields(s1.(tcbs := s1.tcbs - {u}, total := if s1.total > 0 then s1.total - 1 else 0));
    }
  }

  lemma WakingSpares(s: State, c: Call)
    requires Invariant(s) && Enabled(s, c)
    requires c.Notified? || c.NotifiedFromISR? || c.EventOccurs? || c.UnorderedEventOccurs?
          || c.ResumeOne? || c.ResumeOneFromISR? || c.Abort?
    ensures Spares(s, Perform(s, c), Subject(s, c))
  {
    hide Invariant, Wake, Hold;
    WakeSpares(s, c.task);
    HoldSpares(s, c.task);
  }

  lemma HoldSpares(s: State, t: Task)
    requires t in s.tcbs
    ensures Spares(s, Hold(s, t), t)
    ensures Spares(s, Hold(With(s, t, s.tcbs[t].(notify := Received)), t), t)
  {
  }

  lemma RareSpares(s: State, c: Call)
    requires Invariant(s) && Enabled(s, c)
    requires c.CleanUpOne? || c.BlockFor? || c.SuspendOne? || c.SetPriority?
    ensures Spares(s, Perform(s, c), Subject(s, c))
  {
    hide Linked, EventsAgree, InWakeOrder, BitsAgree, NoLoose, TimesAgree, TopRuns,
         UnlinkReset, Unlink, ResetNextUnblock, AddToDelayed, ToSuspended, Readied;
    match c
    case CleanUpOne =>
      CleanUpHead(s);
      UnlinkFields(s, Of(s.lists, Terminating).items[0]);
    case BlockFor(n, indefinitely, kind) => DelayTimes(s, n, indefinitely);
    case SuspendOne(u) => SuspendSettled(s, u); ResetFields(ToSuspended(s, u));
    case SetPriority(u, p) => if s.tcbs[u].priority != p { PrioritySettled(s, u, p); }
  }

  /** A call other than a tick or a resumption affects the block of its subject alone. */
  lemma OthersSpared(s: State, c: Call)
    requires Invariant(s) && Enabled(s, c) && c != TickOccurs && c != ResumeScheduler
    ensures Spares(s, Perform(s, c), Subject(s, c))
  {
    hide Linked, EventsAgree, InWakeOrder, BitsAgree, NoLoose, TimesAgree, TopRuns, Wake, Create, Delete, Scan, Advance;
    match c
    case CreateTask(u, p) => CreateSpares(s, u, p);
    case DeleteTask(u) => DeleteSpares(s, u);
    case CleanUpOne => RareSpares(s, c);
    case BlockFor(_, _, _) => RareSpares(s, c);
    case SuspendOne(_) => RareSpares(s, c);
    case SetPriority(_, _) => RareSpares(s, c);
    case SuspendScheduler =>
    case CatchUp(_) =>
    case ContextSwitch =>
    case Yield =>
    case ClearNotification =>
    case _ => WakingSpares(s, c);
  }

  lemma OthersSleep(s: State, c: Call, t: Task, due: nat)
    requires Invariant(s) && Enabled(s, c) && Asleep(s, t, due)
    requires !Disturbs(c, t) && c != TickOccurs && c != ResumeScheduler
    ensures Asleep(Perform(s, c), t, due) && Perform(s, c).now == s.now
  {
    hide Linked, EventsAgree, InWakeOrder, BitsAgree, NoLoose, TimesAgree, TopRuns, PrioritySet;
    OthersSpared(s, c);
    if Subject(s, c) == t {
      match c
      case CleanUpOne => CleanUpHead(s);
      case SetPriority(u, p) => PrioritySleeps(s, u, p);
      case _ =>
    }
  }

  lemma PrioritySleeps(s: State, u: Task, p: nat)
    requires Invariant(s) && Live(s, u) && p < s.levels
    ensures PrioritySet(s, u, p).now == s.now
    ensures forall t, due :: Asleep(s, t, due) ==> Asleep(PrioritySet(s, u, p), t, due)
  {
    hide Linked, EventsAgree, InWakeOrder, BitsAgree, NoLoose, TimesAgree, TopRuns, UnlinkReset, Readied;
    if s.tcbs[u].priority != p {
      PrioritySettled(s, u, p);
      if s.tcbs[u].container.Ready? { LevelIsPriority(s, u); }
    }
  }

  lemma PerformSleeps(s: State, c: Call, t: Task, due: nat)
    requires Invariant(s) && Enabled(s, c) && Asleep(s, t, due) && !Disturbs(c, t)
    ensures SleepsOrWakes(Perform(s, c), t, due)
  {
    hide Invariant, Disturbs;
    StillDue(s, t);
    if c == TickOccurs {
      TickWakesExactly(s, t, due);
    } else if c == ResumeScheduler {
      ResumeAllWakesExactly(s, t, due);
    } else {
      OthersSleep(s, c, t, due);
    }
  }

  // ---- Epochs ----

  /**
   In unbounded time: the delayed list holds wake times of the current epoch that are still to come,
   the overflow list those of the next, and the next unblock time is never after a delayed one.
   */
  lemma ListsByEpoch(s: State, t: Task)
    requires Invariant(s) && t in s.tcbs && s.tcbs[t].container.Timed?
    ensures var b := s.tcbs[t];
      && b.wake == Wrap(b.due, s.modulus) && s.now < b.due < s.now + s.modulus
      && if b.container.second == s.second
         then Epoch(b.due, s.modulus) == Epoch(s.now, s.modulus) && s.nextUnblock <= b.wake
         else Epoch(b.due, s.modulus) == Epoch(s.now, s.modulus) + 1
  {
    var b, m := s.tcbs[t], s.modulus;
    TimedBlock(s, t);
    hide Invariant;
    EpochOf(s.now, b.due, b.wake, m, b.container.second == s.second);
  }

  lemma TimedBlock(s: State, t: Task)
    requires Invariant(s) && t in s.tcbs && s.tcbs[t].container.Timed?
    ensures s.tick == Wrap(s.now, s.modulus)
    ensures Timely(s.tcbs[t], s.modulus, s.tick, s.now, s.second, s.nextUnblock, s.now + 1)
  {
    hide Linked, EventsAgree, InWakeOrder, BitsAgree, NoLoose, TopRuns;
  }

  lemma EpochOf(now: nat, due: nat, wake: nat, m: Modulus, same: bool)
    requires wake < m && due == now - now % m + wake + if same then 0 else m
    ensures due % m == wake && due / m == now / m + if same then 0 else 1
  {
    DivModSum(now, m);
    Distribute(now / m, 1, m);
    DivModUnique(due, now / m + if same then 0 else 1, wake, m);
  }

  // ---- Exact wake-up ----

  /** Only the tick interrupt and xTaskResumeAll count ticks, one and all the pended ones. */
  lemma OnlyTicksCount(s: State, c: Call)
    requires Invariant(s) && Enabled(s, c)
    ensures Perform(s, c).now == s.now + (
      if c == TickOccurs && s.suspended == 0 then 1
      else if c == ResumeScheduler && s.suspended == 1 then s.pendedTicks else 0)
  {
    hide Linked, EventsAgree, InWakeOrder, BitsAgree, NoLoose, TimesAgree, TopRuns, CountTick, ResumeAll;
    if c == TickOccurs {
      if s.suspended == 0 { CountTickWakes(s.(interrupts := s.interrupts + 1)); }
    } else if c == ResumeScheduler {
      ResumeCounts(s);
    } else {
      OthersSpared(s, c);
    }
  }

  lemma ResumeCounts(s: State)
    requires Invariant(s) && s.suspended > 0
    ensures ResumeAll(s).now == s.now + if s.suspended == 1 then s.pendedTicks else 0
  {
    hide Linked, EventsAgree, InWakeOrder, BitsAgree, NoLoose, TimesAgree, TopRuns, MovePending, Replay,
         ResetNextUnblock;
    var s0 := s.(suspended := s.suspended - 1);
    if s0.suspended == 0 {
      MovePendingKeeps(s0);
      var s1 := MovePending(s0);
      ResetKeepsTimes(s1, s1);
      ResetFields(s1);
      var s2 := if s0.pending == [] then s1 else ResetNextUnblock(s1);
      ReplaySettled(s2, s2.pendedTicks);
    }
  }

  lemma {:induction false} TimeGoesOn(s: State, calls: seq<Call>)
    requires Invariant(s) && Possible(s, calls)
    ensures Run(s, calls).now >= s.now
    decreases |calls|
  {
    hide Invariant, Enabled;
    if calls != [] {
      StepKeeps(s, calls[0]);
      OnlyTicksCount(s, calls[0]);
      TimeGoesOn(Perform(s, calls[0]), calls[1..]);
    }
  }

  /** While `due` has not been counted, an undisturbed task stays blocked until it. */
  lemma {:induction false} SleepsUntilDue(s: State, calls: seq<Call>, t: Task, due: nat)
    requires Invariant(s) && Possible(s, calls) && Asleep(s, t, due)
    requires forall c :: c in calls ==> !Disturbs(c, t)
    requires Run(s, calls).now < due
    ensures Asleep(Run(s, calls), t, due)
    decreases |calls|
  {
    hide Invariant, Enabled, Asleep, Disturbs;
    if calls != [] {
      assert calls[0] in calls;
      StepKeeps(s, calls[0]);
      var s1 := Perform(s, calls[0]);
      TimeGoesOn(s1, calls[1..]);
      PerformSleeps(s, calls[0], t, due);
      SleepsUntilDue(s1, calls[1..], t, due);
    }
  }

  /**
   A task that blocks for n ticks and is not disturbed is blocked in every later state in which
   fewer than n more ticks have been counted, and ready after the call that counts the n-th.
   */
  lemma ExactWakeUp(s: State, n: nat, indefinitely: bool, kind: BlockKind, calls: seq<Call>, last: Call)
    requires Invariant(s) && Enabled(s, BlockFor(n, indefinitely, kind))
    requires !(indefinitely && n == s.modulus - 1)
    requires (StepKeeps(s, BlockFor(n, indefinitely, kind));
      Possible(Perform(s, BlockFor(n, indefinitely, kind)), calls))
    requires forall c :: c in calls || c == last ==> !Disturbs(c, s.current)
    requires (StepKeeps(s, BlockFor(n, indefinitely, kind));
              var r := Run(Perform(s, BlockFor(n, indefinitely, kind)), calls);
              r.now < s.now + n && Enabled(r, last))
    ensures var r := (StepKeeps(s, BlockFor(n, indefinitely, kind));
      Run(Perform(s, BlockFor(n, indefinitely, kind)), calls));
      && Asleep(r, s.current, s.now + n)
      && SleepsOrWakes(Perform(r, last), s.current, s.now + n)
  {
    hide Linked, EventsAgree, InWakeOrder, BitsAgree, NoLoose, TimesAgree, TopRuns, AddToDelayed;
    var c := BlockFor(n, indefinitely, kind);
    StepKeeps(s, c);
    ClockInRange(s);
    DelayUntilDue(s, n);
    var s1 := Perform(s, c);
    assert Asleep(s1, s.current, s.now + n);
    SleepsUntilDue(s1, calls, s.current, s.now + n);
    PerformSleeps(Run(s1, calls), last, s.current, s.now + n);
  }

  lemma ClockInRange(s: State)
    requires Invariant(s)
    ensures s.tick < s.modulus
  {
    hide Linked, EventsAgree, InWakeOrder, BitsAgree, NoLoose, TopRuns;
  }

  // ---- Suspension lasts ----

  /** Suspended by vTaskSuspend, as opposed to blocked without a time limit. */
  ghost predicate StaysSuspended(s: State, t: Task) {
    t in s.tcbs && s.tcbs[t].container == Suspended && s.tcbs[t].event == Free && s.tcbs[t].notify != Waiting
  }

  lemma {:induction false} MovePendingSpares(s: State, t: Task)
    requires Core(s) && t in s.tcbs && s.tcbs[t].event != OnPending
    ensures MovePending(s).tcbs.Keys == s.tcbs.Keys && MovePending(s).tcbs[t] == s.tcbs[t]
    decreases |s.pending|
  {
    hide Linked, Wake;
    if s.pending != [] {
      var u := s.pending[0];
      assert u in s.pending;
      WakeCore(s, u);
      WakeTcbs(s, u);
      WithoutMembers(s.pending, u);
      var s1 := Wake(s, u);
      MovePendingSpares(if Priority(s, u) >= Priority(s, s.current) then s1.(yieldPending := true) else s1, t);
    }
  }

  lemma ResumeAllSpares(s: State, t: Task)
    requires Invariant(s) && s.suspended > 0 && StaysSuspended(s, t)
    ensures StaysSuspended(ResumeAll(s), t)
  {
    hide Linked, EventsAgree, InWakeOrder, BitsAgree, NoLoose, TimesAgree, TopRuns, MovePending, Replay,
         ResetNextUnblock;
    var s0 := s.(suspended := s.suspended - 1);
    if s0.suspended == 0 {
      MovePendingKeeps(s0);
      MovePendingSpares(s0, t);
      var s1 := MovePending(s0);
      ResetKeepsTimes(s1, s1);
      ResetFields(s1);
      var s2 := if s0.pending == [] then s1 else ResetNextUnblock(s1);
      ReplaySettled(s2, s2.pendedTicks);
      ReplayWakes(s2, s2.pendedTicks);
    }
  }

  /** No tick, event, notification, abort or priority change ends a suspension: only a resumption or deletion does. */
  lemma SuspensionLasts(s: State, c: Call, t: Task)
    requires Invariant(s) && Enabled(s, c) && StaysSuspended(s, t)
    requires c != ResumeOne(t) && c != ResumeOneFromISR(t) && c != DeleteTask(t)
    ensures StaysSuspended(Perform(s, c), t)
  {
    hide Linked, EventsAgree, InWakeOrder, BitsAgree, NoLoose, TimesAgree, TopRuns, CountTick, PrioritySet,
         ToSuspended, ResumeAll;
    if c == TickOccurs {
      if s.suspended == 0 { CountTickWakes(s.(interrupts := s.interrupts + 1)); }
    } else if c == ResumeScheduler {
      ResumeAllSpares(s, t);
    } else {
      OthersSpared(s, c);
      if Subject(s, c) == t {
        SubjectStaysSuspended(s, c, t);
      }
    }
  }

  lemma SubjectStaysSuspended(s: State, c: Call, t: Task)
    requires Invariant(s) && Enabled(s, c) && StaysSuspended(s, t) && Subject(s, c) == t
    requires c != ResumeOne(t) && c != ResumeOneFromISR(t) && c != DeleteTask(t)
    requires c != TickOccurs && c != ResumeScheduler
    ensures StaysSuspended(Perform(s, c), t)
  {
    hide Linked, EventsAgree, InWakeOrder, BitsAgree, NoLoose, TimesAgree, TopRuns, PrioritySet, ToSuspended;
    match c
    case CleanUpOne => CleanUpHead(s);
    case SetPriority(_, p) => PrioritySpares(s, t, p);
    case SuspendOne(_) => SuspendAgain(s, t);
    case _ =>
  }

  lemma PrioritySpares(s: State, t: Task, p: nat)
    requires Invariant(s) && StaysSuspended(s, t) && p < s.levels
    ensures StaysSuspended(PrioritySet(s, t, p), t)
  {
    hide Linked, EventsAgree, InWakeOrder, BitsAgree, NoLoose, TimesAgree, TopRuns, UnlinkReset, Readied;
  }

  lemma SuspendAgain(s: State, t: Task)
    requires Invariant(s) && StaysSuspended(s, t) && t != s.idle
    ensures StaysSuspended(SuspendTask(s, t), t)
  {
    hide Linked, EventsAgree, InWakeOrder, BitsAgree, NoLoose, TimesAgree, TopRuns, UnlinkReset, ClearEvent, Append,
         ResetNextUnblock;
    var v := if s.tcbs[t].notify == Waiting then NotWaiting else s.tcbs[t].notify;
    SuspendFields(s, t, Suspended, v);
    TakeOut(s, t);
    ResetFields(ToSuspended(s, t));
  }

  // ---- Equal priorities share the processor ----

  /** A counted tick asks for a switch whenever another ready task has the running task's priority. */
  lemma TickSharesTime(s: State, t: Task)
    requires Invariant(s) && s.suspended == 0
    requires var r := TickInterrupt(s);
      && t in r.tcbs && s.current in r.tcbs && t != s.current
      && r.tcbs[t].container.Ready? && r.tcbs[s.current].container.Ready?
      && r.tcbs[t].priority == r.tcbs[s.current].priority
    ensures TickInterrupt(s).switchRequested
  {
    hide Linked, EventsAgree, InWakeOrder, BitsAgree, NoLoose, TimesAgree, TopRuns, Drain, Count;
    var s0 := s.(interrupts := s.interrupts + 1);
    CountTickWakes(s0);
    var r := CountTick(s0).0;
    LevelIsPriority(r, t);
    LevelIsPriority(r, s.current);
    TwoReady(r, t, s.current);
  }

  lemma TwoReady(s: State, t: Task, u: Task)
    requires Core(s) && t in s.tcbs && u in s.tcbs && t != u
    requires s.tcbs[t].container == s.tcbs[u].container != Nowhere
    ensures |Of(s.lists, s.tcbs[t].container).items| > 1
  {
    hide EventsAgree;
    var l := Of(s.lists, s.tcbs[t].container).items;
    assert t in l && u in l;
    var i, j := IndexOf(l, t), IndexOf(l, u);
    assert i != j;
  }
}
