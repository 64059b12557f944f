/** What each call does to the task it is about, and when it asks for a context switch. */
module KernelEffects {
  import opened SeqLists
  import opened RoundRobin
  import opened Kernel
  import opened Scheduler
  import opened KernelInvariant
  import opened KernelTicks
  import opened KernelSteps
  import opened KernelCalls
  import opened KernelRuns
  import opened KernelWakeUp

  // ---- Ticks ----

  /** Some delayed task that is due by this time has at least the running task's priority. */
  ghost predicate DueReaches(s: State, until: nat) {
    exists t :: t in s.tcbs && s.tcbs[t].container.Timed? && s.tcbs[t].due <= until
                && s.tcbs[t].priority >= Priority(s, s.current)
  }

  lemma {:induction false} DrainAsksIff(s: State)
    requires Settled(s) && Times(s, s.now) && s.pending == []
    ensures Drain(s).1 <==> DueReaches(s, s.now)
    decreases |Of(s.lists, Timed(s.second)).items|
  {
    hide Linked, EventsAgree, InWakeOrder, BitsAgree, NoLoose, TimesAgree;
    if Stops(s) {
      DrainStops(s);
      DrainStopsQuietly(s);
    } else {
      var t := DrainTurn(s);
      var s1 := Wake(s, t);
      DrainAsksIff(s1);
      hide Wake, Drain;
      if x :| x in s.tcbs && s.tcbs[x].container.Timed? && s.tcbs[x].due <= s.now
              && s.tcbs[x].priority >= Priority(s, s.current) {
        assert x != t ==> s1.tcbs[x] == s.tcbs[x];
      }
      if x :| x in s1.tcbs && s1.tcbs[x].container.Timed? && s1.tcbs[x].due <= s1.now
              && s1.tcbs[x].priority >= Priority(s1, s1.current) {
        assert x != t && s1.tcbs[x] == s.tcbs[x];
      }
    }
  }

  lemma DrainStopsQuietly(s: State)
    requires Core(s) && Stops(s)
    ensures !Drain(s).1
  {
  }

  /**
   A tick interrupt asks for a switch exactly when one was requested or pending already, a task that becomes
   due has at least the running task's priority, or the list of that priority has more than one task.
   */
  lemma TickAsksIff(s: State)
    requires Invariant(s) && s.suspended == 0
    ensures var r := TickInterrupt(s);
      r.switchRequested <==>
        || s.switchRequested || s.yieldPending || DueReaches(s, s.now + 1)
        || |Of(r.lists, Ready(Priority(r, r.current))).items| > 1
  {
    hide Linked, EventsAgree, InWakeOrder, BitsAgree, NoLoose, TimesAgree, TopRuns, Drain, Count, CountTick;
    var s0 := s.(interrupts := s.interrupts + 1);
    CountTickWakes(s0);
    TickAsks(s0);
    assert DueReaches(s0, s.now + 1) <==> DueReaches(s, s.now + 1);
  }

  lemma TickAsks(s: State)
    requires Settled(s) && Times(s, s.now + 1) && s.pending == []
    ensures var r := CountTick(s);
      r.1 <==> s.yieldPending || DueReaches(s, s.now + 1)
               || |Of(r.0.lists, Ready(Priority(r.0, r.0.current))).items| > 1
  {
    hide Linked, EventsAgree, InWakeOrder, BitsAgree, NoLoose, TimesAgree, WokenUntil, Count;
    CountTimes(s);
    CountFields(s);
    var s1 := Count(s);
    CountTickWakes(s);
    assert DueReaches(s1, s1.now) <==> DueReaches(s, s.now + 1);
    if s1.tick >= s1.nextUnblock {
      DrainAsksIff(s1);
    } else {
      NothingReaches(s1);
    }
  }

  lemma NothingReaches(s: State)
    requires Times(s, s.now) && s.tick < s.nextUnblock
    ensures !DueReaches(s, s.now)
  {
    NothingDue(s);
    forall t | t in s.tcbs && s.tcbs[t].container.Timed? ensures s.tcbs[t].due > s.now {
      assert Timely(s.tcbs[t], s.modulus, s.tick, s.now, s.second, s.nextUnblock, s.now + 1);
    }
  }

  /** Some pending task has at least the running task's priority. */
  ghost predicate PendingReaches(s: State) {
    exists t :: t in s.pending && Priority(s, t) >= Priority(s, s.current)
  }

  /**
   Emptying the pending list leaves a yield pending exactly if one was, or a task in it is as high as the
   running one.
   */
  lemma {:induction false} PendingAsksIff(s: State)
    requires Core(s)
    ensures MovePending(s).yieldPending <==> s.yieldPending || PendingReaches(s)
    ensures MovePending(s).switchRequested == s.switchRequested
    decreases |s.pending|
  {
    hide Linked, Wake, Without;
    if s.pending != [] {
      var t := s.pending[0];
      assert t in s.pending;
      WakeCore(s, t);
      WakeTcbs(s, t);
      WithoutMembers(s.pending, t);
      var s1 := Wake(s, t);
      var s2 := if Priority(s, t) >= Priority(s, s.current) then s1.(yieldPending := true) else s1;
      forall u ensures Priority(s2, u) == Priority(s, u) {
      }
      PendingAsksIff(s2);
      if u :| u in s.pending && Priority(s, u) >= Priority(s, s.current) {
        assert u == t || u in s2.pending;
      }
    }
  }

  /** The last resumption asks for the switch if a yield is pending by then; an inner one asks for nothing. */
  lemma ResumptionAsksIff(s: State)
    requires Invariant(s) && s.suspended > 0
    ensures var r := ResumeAll(s);
      && (s.suspended == 1 ==> (r.switchRequested <==> s.switchRequested || r.yieldPending))
      && (s.suspended == 1 && (s.yieldPending || PendingReaches(s)) ==> r.yieldPending)
      && (s.suspended > 1 ==> r == s.(suspended := s.suspended - 1))
  {
    hide Linked, EventsAgree, InWakeOrder, BitsAgree, NoLoose, TimesAgree, TopRuns, MovePending, Replay,
         ResetNextUnblock;
    if s.suspended == 1 {
      var s0 := s.(suspended := 0);
      assert PendingReaches(s0) <==> PendingReaches(s);
      hide PendingReaches;
      PendingAsksIff(s0);
      MovePendingKeeps(s0);
      var s1 := MovePending(s0);
      ResetKeepsTimes(s1, s1);
      ResetFields(s1);
      var s2 := if s0.pending == [] then s1 else ResetNextUnblock(s1);
      ReplaySettled(s2, s2.pendedTicks);
      ReplayFlags(s2, s2.pendedTicks);
    }
  }

  /** Replayed ticks take back no flag, and request nothing themselves. */
  lemma {:induction false} ReplayFlags(s: State, n: nat)
    requires Settled(s) && Times(s, s.now + 1) && s.pending == []
    ensures s.yieldPending ==> Replay(s, n).yieldPending
    ensures Replay(s, n).switchRequested == s.switchRequested
    decreases n
  {
    hide Linked, EventsAgree, InWakeOrder, BitsAgree, NoLoose, TimesAgree, TopRuns, WokenUntil, CountTick;
    if n > 0 {
      CountTickWakes(s);
      ReplayFlags(Flagged(CountTick(s)), n - 1);
    }
  }

  /** The walk after items have been added to it one by one, in this order. */
  function AddAll(w: Round<Task>, ts: seq<Task>): Round<Task>
    decreases |ts|
  {
    if ts == [] then w else AddAll(Add(w, ts[0]), ts[1..])
  }

  function AtLevel(s: State, ts: seq<Task>, p: nat): seq<Task> {
    if ts == [] then [] else (if Priority(s, ts[0]) == p then [ts[0]] else []) + AtLevel(s, ts[1..], p)
  }

  lemma {:induction false} LevelFrame(s: State, r: State, ts: seq<Task>, p: nat)
    requires forall t :: Priority(r, t) == Priority(s, t)
    ensures AtLevel(r, ts, p) == AtLevel(s, ts, p)
  {
    if ts != [] {
      LevelFrame(s, r, ts[1..], p);
    }
  }

  /** Tasks held during a suspension join the ready lists in the order in which they were released. */
  lemma {:induction false} PendingJoinInOrder(s: State, p: nat)
    requires Core(s) && forall t :: t in s.pending ==> !s.tcbs[t].container.Ready?
    ensures Of(MovePending(s).lists, Ready(p)) == AddAll(Of(s.lists, Ready(p)), AtLevel(s, s.pending, p))
    decreases |s.pending|
  {
    hide Linked, Wake, Without, Add;
    if s.pending != [] {
      var t := s.pending[0];
      assert t in s.pending;
      WakeCore(s, t);
      WakeTcbs(s, t);
      HeadTakenOff(s.pending, t);
      WokenList(s, t, p);
      var s1 := Wake(s, t);
      var s2 := if Priority(s, t) >= Priority(s, s.current) then s1.(yieldPending := true) else s1;
      forall u ensures Priority(s2, u) == Priority(s, u) {
      }
      LevelFrame(s, s2, s.pending[1..], p);
      PendingJoinInOrder(s2, p);
      assert s2.pending == s.pending[1..] && s2.lists == s1.lists && MovePending(s) == MovePending(s2);
      AddFirst(s, s.pending, Of(s.lists, Ready(p)), p);
    }
  }

  lemma AddFirst(s: State, ts: seq<Task>, w: Round<Task>, p: nat)
    requires ts != []
    ensures AddAll(w, AtLevel(s, ts, p)) ==
            AddAll(if Priority(s, ts[0]) == p then Add(w, ts[0]) else w, AtLevel(s, ts[1..], p))
  {
    hide Add;
    if Priority(s, ts[0]) == p {
      assert AtLevel(s, ts, p)[1..] == AtLevel(s, ts[1..], p);
    } else {
      assert [] + AtLevel(s, ts[1..], p) == AtLevel(s, ts[1..], p);
    }
  }

  lemma HeadTakenOff(ts: seq<Task>, t: Task)
    requires ts != [] && ts[0] == t && NoDup(ts)
    ensures Without(ts, t) == ts[1..] && t !in ts[1..]
  {
  }

  lemma WokenList(s: State, t: Task, p: nat)
    requires t in s.tcbs && !s.tcbs[t].container.Ready?
    ensures Of(Wake(s, t).lists, Ready(p)) ==
      if s.tcbs[t].priority == p then Add(Of(s.lists, Ready(p)), t) else Of(s.lists, Ready(p))
  {
    hide Drop, Add;
  }

  /** What is stored as the next unblock time is the earliest of the delayed list's wake times, or the maximum. */
  lemma ResetIsEarliest(s: State)
    requires Core(s) && InWakeOrder(s.tcbs, s.lists)
    ensures var r, l := ResetNextUnblock(s), Timed(s.second);
      && r == s.(nextUnblock := r.nextUnblock)
      && (forall t :: t in s.tcbs && s.tcbs[t].container == l ==> r.nextUnblock <= s.tcbs[t].wake)
      && if exists t :: t in s.tcbs && s.tcbs[t].container == l
         then exists t :: t in s.tcbs && s.tcbs[t].container == l && s.tcbs[t].wake == r.nextUnblock
         else r.nextUnblock == s.modulus - 1
  {
    var l := Of(s.lists, Timed(s.second)).items;
    if l == [] {
      assert forall t :: t in s.tcbs && s.tcbs[t].container == Timed(s.second) ==> t in l;
    } else {
      HeadIsEarliest(s);
    }
  }

  // ---- When a call asks for a switch ----

  /** Higher than the running task. */
  predicate Outranks(s: State, t: Task) {
    Priority(s, t) > Priority(s, s.current)
  }

  predicate Reaches(s: State, t: Task) {
    Priority(s, t) >= Priority(s, s.current)
  }

  /** Calls that wake a task which outranks the running one leave a yield pending, if the source does it that way. */
  predicate PendsYield(s: State, c: Call) {
    match c
    case EventOccurs(t) => Outranks(s, t)
    case UnorderedEventOccurs(t) => Outranks(s, t)
    case Abort(t) => t in s.tcbs && t != s.current && Blocked(s, t) && Outranks(s, t)
    case NotifiedFromISR(t) => t in s.tcbs && s.tcbs[t].notify == Waiting && Outranks(s, t)
    case ResumeOneFromISR(t) => t in s.tcbs && IsSuspended(s, t) && s.suspended == 0 && Reaches(s, t)
    case _ => false
  }

  /** Or they ask for a switch, and so do calls with which the running task gives up its place. */
  predicate RequestsSwitch(s: State, c: Call) {
    match c
    case Notified(t) => t in s.tcbs && s.tcbs[t].notify == Waiting && Outranks(s, t)
    case NotifiedFromISR(t) => t in s.tcbs && s.tcbs[t].notify == Waiting && Outranks(s, t)
    case ResumeOne(t) => t in s.tcbs && t != s.current && IsSuspended(s, t) && Reaches(s, t)
    case ResumeOneFromISR(t) => t in s.tcbs && IsSuspended(s, t) && s.suspended == 0 && Reaches(s, t)
    case CreateTask(_, p) => p > Priority(s, s.current)
    case DeleteTask(t) => t == s.current
    case SuspendOne(t) => t == s.current
    case BlockFor(_, _, kind) => kind == OnNotify
    case SetPriority(t, p) =>
      if p > Priority(s, t) then t != s.current && p >= Priority(s, s.current)
      else p < Priority(s, t) && t == s.current
    case Yield => true
    case _ => false
  }

  /** These are exactly the calls, and the conditions, that raise either flag; none takes one back. */
  lemma AsksIff(s: State, c: Call)
    requires Invariant(s) && Enabled(s, c) && c != TickOccurs && c != ResumeScheduler && c != ContextSwitch
    ensures Perform(s, c).yieldPending <==> s.yieldPending || PendsYield(s, c)
    ensures Perform(s, c).switchRequested <==> s.switchRequested || RequestsSwitch(s, c)
  {
    hide Invariant, PendsYield, RequestsSwitch, Perform, Enabled;
    match c
    case CreateTask(_, _) => OthersAsk(s, c);
    case DeleteTask(_) => OthersAsk(s, c);
    case BlockFor(_, _, _) => OthersAsk(s, c);
    case SuspendOne(_) => OthersAsk(s, c);
    case SetPriority(_, _) => OthersAsk(s, c);
    case CleanUpOne => OthersAsk(s, c);
    case SuspendScheduler => FlagsAsk(s, c);
    case CatchUp(_) => FlagsAsk(s, c);
    case Yield => FlagsAsk(s, c);
    case ClearNotification => FlagsAsk(s, c);
    case _ => WakingAsks(s, c);
  }

  lemma FlagsAsk(s: State, c: Call)
    requires Invariant(s) && Enabled(s, c)
    requires c.SuspendScheduler? || c.CatchUp? || c.Yield? || c.ClearNotification?
    ensures Perform(s, c).yieldPending <==> s.yieldPending || PendsYield(s, c)
    ensures Perform(s, c).switchRequested <==> s.switchRequested || RequestsSwitch(s, c)
  {
    hide Invariant;
  }

  lemma WakingAsks(s: State, c: Call)
    requires Invariant(s) && Enabled(s, c)
    requires c.Notified? || c.NotifiedFromISR? || c.EventOccurs? || c.UnorderedEventOccurs?
          || c.ResumeOne? || c.ResumeOneFromISR? || c.Abort?
    ensures Perform(s, c).yieldPending <==> s.yieldPending || PendsYield(s, c)
    ensures Perform(s, c).switchRequested <==> s.switchRequested || RequestsSwitch(s, c)
  {
    hide Invariant, Wake, Hold;
    FlagsStay(s, c.task);
    FlagsStay(With(s, c.task, s.tcbs[c.task].(notify := Received)), c.task);
  }

  lemma FlagsStay(s: State, t: Task)
    requires t in s.tcbs
    ensures Wake(s, t).yieldPending == s.yieldPending && Wake(s, t).switchRequested == s.switchRequested
    ensures Hold(s, t).yieldPending == s.yieldPending && Hold(s, t).switchRequested == s.switchRequested
  {
  }

  lemma OthersAsk(s: State, c: Call)
    requires Invariant(s) && Enabled(s, c)
    requires c.CreateTask? || c.DeleteTask? || c.BlockFor? || c.SuspendOne? || c.SetPriority? || c.CleanUpOne?
    ensures Perform(s, c).yieldPending <==> s.yieldPending || PendsYield(s, c)
    ensures Perform(s, c).switchRequested <==> s.switchRequested || RequestsSwitch(s, c)
  {
    hide Linked, EventsAgree, InWakeOrder, BitsAgree, NoLoose, TimesAgree, TopRuns,
         UnlinkReset, Unlink, AddToDelayed, ToSuspended, Readied, Create, Delete, PrioritySet, ResetNextUnblock;
    match c
    case CreateTask(t, p) => CreateSettled(s, t, p);
    case DeleteTask(t) => DeleteFlags(s, t);
    case SuspendOne(t) => SuspendSettled(s, t); ResetFields(ToSuspended(s, t));
    case BlockFor(n, indefinitely, kind) => DelayTimes(s, n, indefinitely);
    case SetPriority(t, p) => PriorityFlags(s, t, p);
    case CleanUpOne => CleanUpHead(s); UnlinkFields(s, Of(s.lists, Terminating).items[0]);
  }

  lemma DeleteFlags(s: State, t: Task)
    requires Settled(s) && Live(s, t)
    ensures Delete(s, t).yieldPending == s.yieldPending
    ensures Delete(s, t).switchRequested == (s.switchRequested || t == s.current)
  {
    hide Settled, UnlinkReset, ClearEvent, Append, ResetNextUnblock, Detached;
    TakeOut(s, t);
    var s1 := ClearEvent(UnlinkReset(s, t), t);
    AppendFields(s1, t, Terminating);
    ResetFields(s1.(tcbs := s1.tcbs - {t}, total := if s1.total > 0 then s1.total - 1 else 0));
  }

  lemma PriorityFlags(s: State, t: Task, p: nat)
    requires t in s.tcbs
    ensures PrioritySet(s, t, p).yieldPending == s.yieldPending
    ensures PrioritySet(s, t, p).switchRequested <==> s.switchRequested || RequestsSwitch(s, SetPriority(t, p))
  {
    hide UnlinkReset, Readied;
    UnlinkFields(s, t);
    var u := UnlinkReset(s, t);
    if s.tcbs[t].priority != p {
      ReadiedFields(With(u, t, u.tcbs[t].(priority := p)), t);
    }
  }

  // ---- What becomes of the task ----

  /** A task that blocks can be released by what it waits for, by its time running out, or by an abort. */
  lemma BlockedTask(s: State, n: nat, indefinitely: bool, kind: BlockKind)
    requires Invariant(s) && Enabled(s, BlockFor(n, indefinitely, kind))
    ensures var t, r := s.current, Block(s, n, indefinitely, kind);
      && t in r.tcbs
      && (if indefinitely && n == s.modulus - 1 then r.tcbs[t].container == Suspended
          else r.tcbs[t].container.Timed? && r.tcbs[t].due == s.now + n)
      && (Enabled(r, EventOccurs(t)) <==> kind == OnEvent)
      && (kind == OnNotify ==> r.tcbs[t].notify == Waiting && Enabled(r, Notified(t)))
      && (kind != OnNotify ==> r.tcbs[t].notify == s.tcbs[t].notify)
      && r.tcbs[t].priority == s.tcbs[t].priority
      && (IsSuspended(r, t) ==> kind != OnEvent && indefinitely && n == s.modulus - 1)
  {
    hide Linked, EventsAgree, InWakeOrder, BitsAgree, NoLoose, TimesAgree, TopRuns, AddToDelayed;
    ClockInRange(s);
    DelayTimes(s, n, indefinitely);
    DelayUntilDue(s, n);
    DelayForever(s);
  }

  /** A suspension begins: whatever the task waited for is given up, so that only a resumption ends it. */
  lemma SuspensionBegins(s: State, t: Task)
    requires Invariant(s) && Enabled(s, SuspendOne(t))
    ensures StaysSuspended(SuspendTask(s, t), t)
    ensures SuspendTask(s, t).tcbs[t] ==
      s.tcbs[t].(container := Suspended, event := Free,
                 notify := if s.tcbs[t].notify == Received then Received else NotWaiting)
    ensures t !in SuspendTask(s, t).pending
  {
    PendingDistinct(s);
    SuspendedTask(s, t);
    hide Invariant, SuspendTask, Enabled, Without, NoDup;
    WithoutMembers(s.pending, t);
  }

  lemma SuspendedTask(s: State, t: Task)
    requires Settled(s) && Live(s, t)
    ensures var r, b := SuspendTask(s, t), s.tcbs[t];
      && r.pending == Without(s.pending, t)
      && r.tcbs == s.tcbs[t := b.(container := Suspended, event := Free,
                                  notify := if b.notify == Waiting then NotWaiting else b.notify)]
  {
    hide Settled, UnlinkReset, ClearEvent, Append, ResetNextUnblock, Without;
    SuspendFields(s, t, Suspended, if s.tcbs[t].notify == Waiting then NotWaiting else s.tcbs[t].notify);
    ResetFields(ToSuspended(s, t));
  }

  lemma PendingDistinct(s: State)
    requires Core(s)
    ensures NoDup(s.pending)
  {
  }

  /** A new task is ready at its priority, waits for nothing, and is counted; every other task is as before. */
  lemma CreatedTask(s: State, t: Task, p: nat)
    requires Invariant(s) && Enabled(s, CreateTask(t, p))
    ensures var r := Create(s, t, p);
      && r.tcbs == s.tcbs[t := Tcb(p, Ready(p), 0, 0, Free, NotWaiting)] && r.total == s.total + 1
  {
    hide Linked, EventsAgree, InWakeOrder, BitsAgree, NoLoose, TimesAgree, TopRuns, Readied;
    CreateSettled(s, t, p);
    assert s.tcbs[t := Tcb(p, Ready(p), 0, 0, Free, NotWaiting)].Keys == s.tcbs.Keys + {t};
  }

  /** A priority is set as given, and a ready task is then in the list of that priority; nothing else changes. */
  lemma PrioritisedTask(s: State, t: Task, p: nat)
    requires Invariant(s) && Enabled(s, SetPriority(t, p))
    ensures var r, b := PrioritySet(s, t, p), s.tcbs[t];
      r.tcbs == s.tcbs[t := b.(priority := p, container := if b.container.Ready? then Ready(p) else b.container)]
  {
    if s.tcbs[t].container.Ready? { LevelIsPriority(s, t); }
    hide Invariant;
    RelevelledTask(s, t, p);
  }

  lemma RelevelledTask(s: State, t: Task, p: nat)
    requires t in s.tcbs && (s.tcbs[t].container.Ready? ==> s.tcbs[t].container == Ready(s.tcbs[t].priority))
    ensures var r, b := PrioritySet(s, t, p), s.tcbs[t];
      r.tcbs == s.tcbs[t := b.(priority := p, container := if b.container.Ready? then Ready(p) else b.container)]
  {
    hide UnlinkReset, Readied;
    var b, u := s.tcbs[t], UnlinkReset(s, t);
    UnlinkFields(s, t);
    if b.priority != p {
      ReadiedFields(With(u, t, u.tcbs[t].(priority := p)), t);
    }
  }

  // ---- Notifications are not lost ----

  /** A notification is recorded, whether the task waits for one or not; if it does not, that is all. */
  lemma NotificationIsRecorded(s: State, c: Call)
    requires Invariant(s) && Enabled(s, c) && (c.Notified? || c.NotifiedFromISR?)
    ensures var t, r := c.task, Perform(s, c);
      && t in r.tcbs && r.tcbs[t].notify == Received
      && (s.tcbs[t].notify != Waiting ==> r == s.(tcbs := s.tcbs[t := s.tcbs[t].(notify := Received)]))
  {
    hide Invariant, Wake, Hold;
    var s0 := With(s, c.task, s.tcbs[c.task].(notify := Received));
    WakeTcbs(s0, c.task);
    HoldTask(s0, c.task);
  }

  /** A release under a suspended scheduler puts the task at the end of the pending list. */
  lemma HeldLast(s: State, c: Call)
    requires Invariant(s) && Enabled(s, c) && s.suspended > 0
    requires c.EventOccurs? || (c.NotifiedFromISR? && s.tcbs[c.task].notify == Waiting)
          || (c.ResumeOneFromISR? && IsSuspended(s, c.task))
    ensures Perform(s, c).pending == s.pending + [c.task]
  {
    hide Invariant;
  }

  lemma HoldTask(s: State, t: Task)
    requires t in s.tcbs
    ensures Hold(s, t).tcbs == s.tcbs[t := s.tcbs[t].(event := OnPending)]
  {
  }

  /** The calls by which a task takes note of a notification, and those that end its life. */
  predicate Consumes(s: State, c: Call, t: Task) {
    match c
    case ClearNotification => s.current == t
    case BlockFor(_, _, kind) => s.current == t && kind == OnNotify
    case DeleteTask(u) => u == t
    case CleanUpOne => Of(s.lists, Terminating).items != [] && Of(s.lists, Terminating).items[0] == t
    case _ => false
  }

  lemma {:induction false} MovePendingNotes(s: State, t: Task)
    requires Core(s) && t in s.tcbs
    ensures t in MovePending(s).tcbs && MovePending(s).tcbs[t].notify == s.tcbs[t].notify
    decreases |s.pending|
  {
    hide Linked, Wake;
    if s.pending != [] {
      var u := s.pending[0];
      assert u in s.pending;
      WakeCore(s, u);
      WakeTcbs(s, u);
      WithoutMembers(s.pending, u);
      var s1 := Wake(s, u);
      MovePendingNotes(if Priority(s, u) >= Priority(s, s.current) then s1.(yieldPending := true) else s1, t);
    }
  }

  lemma ClockNotes(s: State, c: Call, t: Task)
    requires Invariant(s) && Enabled(s, c) && (c == TickOccurs || c == ResumeScheduler) && t in s.tcbs
    ensures t in Perform(s, c).tcbs && Perform(s, c).tcbs[t].notify == s.tcbs[t].notify
  {
    hide Linked, EventsAgree, InWakeOrder, BitsAgree, NoLoose, TimesAgree, TopRuns, MovePending, Replay,
         ResetNextUnblock, CountTick;
    if c == TickOccurs {
      if s.suspended == 0 { CountTickWakes(s.(interrupts := s.interrupts + 1)); }
    } else if s.suspended == 1 {
      ResumedNotes(s.(suspended := 0), t);
    }
  }

  lemma ResumedNotes(s: State, t: Task)
    requires Settled(s) && Times(s, s.now + 1) && t in s.tcbs
    ensures t in Resumed(s).tcbs && Resumed(s).tcbs[t].notify == s.tcbs[t].notify
  {
    hide Linked, EventsAgree, InWakeOrder, BitsAgree, NoLoose, TimesAgree, TopRuns, MovePending, Replay,
         ResetNextUnblock;
    MovePendingKeeps(s);
    MovePendingNotes(s, t);
    var s1 := MovePending(s);
    ResetKeepsTimes(s1, s1);
    ResetFields(s1);
    var s2 := if s.pending == [] then s1 else ResetNextUnblock(s1);
    ReplaySettled(s2, s2.pendedTicks);
    ReplayWakes(s2, s2.pendedTicks);
  }

  /** A notification that has come stays recorded until the task itself takes note of it. */
  lemma StaysRecorded(s: State, c: Call, t: Task)
    requires Invariant(s) && Enabled(s, c) && !Consumes(s, c, t)
    requires t in s.tcbs && s.tcbs[t].notify == Received
    ensures t in Perform(s, c).tcbs && Perform(s, c).tcbs[t].notify == Received
  {
    hide Invariant, Perform, Enabled;
    if c == TickOccurs || c == ResumeScheduler {
      ClockNotes(s, c, t);
    } else if Subject(s, c) != t {
      OthersSpared(s, c);
    } else {
      SubjectStaysRecorded(s, c, t);
    }
  }

  lemma SubjectStaysRecorded(s: State, c: Call, t: Task)
    requires Invariant(s) && Enabled(s, c) && !Consumes(s, c, t) && Subject(s, c) == t
    requires c != TickOccurs && c != ResumeScheduler
    requires t in s.tcbs && s.tcbs[t].notify == Received
    ensures t in Perform(s, c).tcbs && Perform(s, c).tcbs[t].notify == Received
  {
    hide Linked, EventsAgree, InWakeOrder, BitsAgree, NoLoose, TimesAgree, TopRuns, Wake, Hold, Block, SuspendTask,
         PrioritySet;
    WakeTcbs(s, t);
    HoldTask(s, t);
    match c
    case BlockFor(n, indefinitely, kind) => BlockedTask(s, n, indefinitely, kind);
    case SuspendOne(_) => SuspensionBegins(s, t);
    case SetPriority(_, p) => PrioritisedTask(s, t, p);
    case _ =>
  }

  ghost predicate NeverConsumed(s: State, calls: seq<Call>, t: Task)
    requires Invariant(s) && Possible(s, calls)
    decreases |calls|
  {
    calls == [] ||
    (!Consumes(s, calls[0], t) && (StepKeeps(s, calls[0]); NeverConsumed(Perform(s, calls[0]), calls[1..], t)))
  }

  /** Over every run: once notified, a task has the notification on record until it takes note of it. */
  lemma {:induction false} NotificationIsNotLost(s: State, calls: seq<Call>, t: Task)
    requires Invariant(s) && Possible(s, calls) && NeverConsumed(s, calls, t)
    requires t in s.tcbs && s.tcbs[t].notify == Received
    ensures t in Run(s, calls).tcbs && Run(s, calls).tcbs[t].notify == Received
    decreases |calls|
  {
    hide Invariant, Enabled, Consumes, Perform;
    if calls != [] {
      StepKeeps(s, calls[0]);
      StaysRecorded(s, calls[0], t);
      NotificationIsNotLost(Perform(s, calls[0]), calls[1..], t);
    }
  }
}
