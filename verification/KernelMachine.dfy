/** The kernel's globals, updated in place by the operations of tasks.c. */
module KernelMachine {
  import opened SeqLists
  import opened TickTime
  import opened RoundRobin
  import opened Kernel
  import S = Scheduler
  import opened KernelInvariant
  import opened KernelTicks
  import opened KernelSteps
  import opened KernelCalls
  import opened KernelRuns

  class Machine {
    const modulus: Modulus
    const levels: nat
    const idle: Task
    var tcbs: map<Task, Tcb>
    var lists: Lists
    var pending: seq<Task>
    var current: Task
    var tick: nat
    var now: nat
    var interrupts: nat
    var pendedTicks: nat
    var second: bool
    var nextUnblock: nat
    var suspended: nat
    var yieldPending: bool
    var switchRequested: bool
    var top: nat
    var bitmap: set<nat>
    var total: nat
    var deleted: nat

    function View(): State
      reads this
    {
      State(modulus, levels, tcbs, lists, pending, current, idle, tick, now, interrupts, pendedTicks, second,
            nextUnblock, suspended, yieldPending, switchRequested, top, bitmap, total, deleted)
    }

    constructor (modulus: Modulus, levels: nat, idle: Task)
      requires levels > 0
      ensures View() == Boot(modulus, levels, idle) && Invariant(View())
    {
      this.modulus, this.levels, this.idle := modulus, levels, idle;
      tcbs, lists := map[idle := Tcb(0, Ready(0), 0, 0, Free, NotWaiting)], map[Ready(0) := Walk([idle], 0)];
      pending, current, total, deleted := [], idle, 1, 0;
      tick, now, interrupts, pendedTicks, second, nextUnblock := 0, 0, 0, 0, false, modulus - 1;
      suspended, yieldPending, switchRequested, top, bitmap := 0, false, false, 0, {0};
      new;
      BootInvariant(modulus, levels, idle);
    }

    // ---- List moves ----

    method RemoveStateItem(t: Task)
      requires t in tcbs
      modifies this
      ensures View() == Unlink(old(View()), t)
    {
      var l := tcbs[t].container;
      lists := lists[l := Drop(Of(lists, l), t)];
      tcbs := tcbs[t := tcbs[t].(container := Nowhere)];
    }

    method AppendStateItem(t: Task, l: ListId)
      requires t in tcbs
      modifies this
      ensures View() == Append(old(View()), t, l)
    {
      lists := lists[l := Add(Of(lists, l), t)];
      tcbs := tcbs[t := tcbs[t].(container := l)];
    }

    /** prvAddTaskToReadyList: either port's record of ready priorities is brought up to date. */
    method AddToReadyList(t: Task)
      requires t in tcbs
      modifies this
      ensures View() == Readied(old(View()), t)
    {
      var p := tcbs[t].priority;
      if p > top {
        top := p;
      }
      bitmap := bitmap + {p};
      AppendStateItem(t, Ready(p));
    }

    method RemoveAndReset(t: Task)
      requires t in tcbs
      modifies this
      ensures View() == UnlinkReset(old(View()), t)
    {
      var p, l := tcbs[t].priority, tcbs[t].container;
      RemoveStateItem(t);
      if Of(lists, l).items == [] && Of(lists, Ready(p)).items == [] {
        bitmap := bitmap - {p};
      }
    }

    method RemoveEventItem(t: Task)
      requires t in tcbs
      modifies this
      ensures View() == ClearEvent(old(View()), t)
    {
      if t in pending {
        pending := RemoveAt(pending, IndexOf(pending, t));
      }
      tcbs := tcbs[t := tcbs[t].(event := Free)];
    }

    method Unblock(t: Task)
      requires t in tcbs
      modifies this
      ensures View() == Wake(old(View()), t)
    {
      RemoveStateItem(t);
      RemoveEventItem(t);
      AddToReadyList(t);
    }

    /** prvResetNextTaskUnblockTime */
    method ResetNextUnblockTime()
      requires Core(View())
      modifies this
      ensures View() == S.ResetNextUnblock(old(View()))
    {
      var l := Of(lists, Timed(second)).items;
      if l == [] {
        nextUnblock := modulus - 1;
      } else {
        assert l[0] in l;
        nextUnblock := tcbs[l[0]].wake;
      }
    }

    // ---- Ticks ----

    /** Wakes every task at the front of the delayed list whose time has come. */
    method WakeExpired() returns (switchRequired: bool)
      requires Core(View())
      modifies this
      ensures (View(), switchRequired) == S.Drain(old(View()))
    {
      hide Core, Wake;
      ghost var s := View();
      switchRequired := false;
      while true
        invariant Core(View()) && current == s.current && modulus == s.modulus
        invariant S.Drain(s) == (S.Drain(View()).0, switchRequired || S.Drain(View()).1)
        decreases |Of(lists, Timed(second)).items|
      {
        ghost var s1 := View();
        var l := Of(lists, Timed(second)).items;
        if l == [] {
          nextUnblock := modulus - 1;
          return;
        }
        var t := l[0];
        HeadIsTask(s1, t);
        if tick < tcbs[t].wake {
          nextUnblock := tcbs[t].wake;
          return;
        }
        DrainTurnOnce(s1, t);
        Unblock(t);
        if tcbs[t].priority >= S.Priority(View(), current) {
          switchRequired := true;
        }
      }
    }

    /** Moves the tick count on; when it wraps the two delayed lists change places. */
    method CountOneTick()
      requires Core(View())
      modifies this
      ensures View() == S.Count(old(View()))
    {
      hide Linked, EventsAgree, S.ResetNextUnblock;
      tick, now := (tick + 1) % modulus, now + 1;
      if tick == 0 {
        second := !second;
        ResetFields(View());
        ResetNextUnblockTime();
      }
    }

    /** xTaskIncrementTick */
    method IncrementTick() returns (switchRequired: bool)
      requires Core(View())
      modifies this
      ensures old(suspended) == 0 ==> (View(), switchRequired) == S.CountTick(old(View()))
      ensures old(suspended) > 0 ==>
                !switchRequired && View() == old(View()).(pendedTicks := (old(pendedTicks) + 1) % modulus)
    {
      hide Linked, EventsAgree, Wake, S.Drain, S.Count;
      switchRequired := false;
      if suspended == 0 {
        CountFields(View());
        CountOneTick();
        if tick >= nextUnblock {
          S.DrainCore(View());
          switchRequired := WakeExpired();
        }
        if |Of(lists, Ready(S.Priority(View(), current))).items| > 1 {
          switchRequired := true;
        }
        if yieldPending {
          switchRequired := true;
        }
      } else {
        pendedTicks := (pendedTicks + 1) % modulus;
      }
    }

    /** Moves every pending task to its ready list. */
    method MovePendingTasks()
      requires Core(View())
      modifies this
      ensures View() == S.MovePending(old(View()))
    {
      hide Linked, Wake, Without;
      ghost var s := View();
      while pending != []
        invariant Core(View()) && S.MovePending(View()) == S.MovePending(s)
        decreases |pending|
      {
        ghost var s1 := View();
        var t := pending[0];
        assert t in pending;
        WakeCore(s1, t);
        WakeTcbs(s1, t);
        WithoutMembers(pending, t);
        var outranks := tcbs[t].priority >= S.Priority(View(), current);
        Unblock(t);
        if outranks {
          yieldPending := true;
        }
      }
    }

    /** Counts the ticks that occurred while the scheduler was suspended. */
    method ReplayTicks()
      requires Core(View()) && suspended == 0
      modifies this
      ensures View() == S.Replay(old(View()), old(pendedTicks)).(pendedTicks := 0)
    {
      hide Linked, EventsAgree, S.CountTick;
      ghost var s := View();
      var count := pendedTicks;
      while count > 0
        invariant Core(View()) && suspended == 0
        invariant S.Replay(View(), count) == S.Replay(s, s.pendedTicks)
      {
        S.CountTickCore(View());
        CountKeepsSuspension(View());
        var switchRequired := IncrementTick();
        if switchRequired {
          yieldPending := true;
        }
        count := count - 1;
      }
      pendedTicks := 0;
    }

    /** What is left to do once uxSchedulerSuspended is back at zero. */
    method CatchUp() returns (alreadyYielded: bool)
      requires Core(View()) && suspended == 0
      modifies this
      ensures View() == S.Resumed(old(View())) && alreadyYielded == yieldPending
    {
      hide Linked, EventsAgree, S.MovePending, S.Replay, S.ResetNextUnblock;
      alreadyYielded := false;
      var anyMoved := pending != [];
      S.MovePendingCore(View());
      MovePendingKeepsSuspension(View());
      MovePendingTasks();
      if anyMoved {
        ResetFields(View());
        ResetNextUnblockTime();
      }
      ReplayKeepsSuspension(View(), pendedTicks);
      ReplayTicks();
      if yieldPending {
        alreadyYielded := true;
        switchRequested := true;
      }
    }

    /** xTaskResumeAll */
    method ResumeAll() returns (alreadyYielded: bool)
      requires Core(View()) && suspended > 0
      modifies this
      ensures View() == S.ResumeAll(old(View()))
      ensures alreadyYielded <==> old(suspended) == 1 && yieldPending
      ensures old(Invariant(View()) && Enabled(View(), ResumeScheduler)) ==> Invariant(View())
    {
      hide Invariant, Linked, EventsAgree, S.Resumed;
      ghost var s := View();
      if Invariant(s) && Enabled(s, ResumeScheduler) {
        ResumeAllKeeps(s);
      }
      alreadyYielded := false;
      suspended := suspended - 1;
      if suspended == 0 {
        alreadyYielded := CatchUp();
      }
    }

    // ---- Selection ----

    /** taskSELECT_HIGHEST_PRIORITY_TASK, the generic loop. */
    method SelectHighest()
      requires Of(lists, Ready(S.Scan(lists, top))).items != []
      modifies this
      ensures View() ==
        var p, s := S.Scan(old(lists), old(top)), old(View());
        var w := Advance(Of(s.lists, Ready(p)));
        s.(top := p, lists := s.lists[Ready(p) := w], current := w.items[w.cursor - 1])
    {
      var p: nat := top;
      while p > 0 && Of(lists, Ready(p)).items == []
        invariant p <= top && S.Scan(lists, p) == S.Scan(lists, top)
      {
        p := p - 1;
      }
      var w := Advance(Of(lists, Ready(p)));
      lists, current, top := lists[Ready(p) := w], w.items[w.cursor - 1], p;
    }

    /** vTaskSwitchContext */
    method SwitchContext()
      requires Settled(View())
      modifies this
      ensures (ScanIsHighest(old(View())); View() == S.SwitchContext(old(View())))
      ensures old(Invariant(View()) && Enabled(View(), ContextSwitch)) ==> Invariant(View())
    {
      hide Invariant, Settled, Advance, S.Scan;
      ghost var s := View();
      ScanIsHighest(s);
      if Invariant(s) && Enabled(s, ContextSwitch) {
        SwitchKeeps(s);
      }
      switchRequested := false;
      if suspended > 0 {
        yieldPending := true;
      } else {
        yieldPending := false;
        SelectHighest();
      }
    }

    // ---- Blocking and unblocking ----

    /** prvAddCurrentTaskToDelayedList */
    method AddCurrentToDelayedList(ticks: nat, indefinitely: bool)
      requires current in tcbs
      modifies this
      ensures View() == S.AddToDelayed(old(View()), ticks, indefinitely)
    {
      hide Unlink, UnlinkReset, Append, InsertByWake;
      var t := current;
      UnlinkFields(View(), t);
      RemoveAndReset(t);
      if ticks == modulus - 1 && indefinitely {
        AppendStateItem(t, Suspended);
      } else {
        var wake := (tick + ticks) % modulus;
        tcbs := tcbs[t := tcbs[t].(wake := wake, due := now + ticks)];
        if wake < tick {
          InsertStateItem(t, Timed(!second));
        } else {
          if wake < nextUnblock {
            nextUnblock := wake;
          }
          InsertStateItem(t, Timed(second));
        }
      }
    }

    /** vListInsert of the state item. */
    method InsertStateItem(t: Task, l: ListId)
      requires t in tcbs
      modifies this
      ensures View() == InsertByWake(old(View()), t, l)
    {
      lists := lists[l := InsertWalk(View(), Of(lists, l), t)];
      tcbs := tcbs[t := tcbs[t].(container := l)];
    }

    /** Leaves the task for xTaskResumeAll to move. */
    method HoldPending(t: Task)
      requires t in tcbs
      modifies this
      ensures View() == S.Hold(old(View()), t)
    {
      pending := pending + [t];
      tcbs := tcbs[t := tcbs[t].(event := OnPending)];
    }

    /** xTaskRemoveFromEventList */
    method RemoveFromEventList(t: Task) returns (higher: bool)
      requires t in tcbs
      modifies this
      ensures View() == S.RemoveFromEvent(old(View()), t)
      ensures higher <==> old(S.Priority(View(), t) > S.Priority(View(), current))
      ensures old(Invariant(View()) && Enabled(View(), EventOccurs(t))) ==> Invariant(View())
    {
      hide Invariant, Wake;
      ghost var s := View();
      if Invariant(s) && Enabled(s, EventOccurs(t)) {
        EventKeeps(s, t);
      }
      higher := tcbs[t].priority > S.Priority(View(), current);
      if suspended == 0 {
        Unblock(t);
      } else {
        HoldPending(t);
      }
      if higher {
        yieldPending := true;
      }
    }

    /** xTaskGenericNotify */
    method GenericNotify(t: Task)
      requires t in tcbs
      modifies this
      ensures View() == S.Notify(old(View()), t)
      ensures old(Invariant(View()) && Enabled(View(), Notified(t))) ==> Invariant(View())
    {
      hide Invariant, Wake;
      ghost var s := View();
      if Invariant(s) && Enabled(s, Notified(t)) {
        NotifyKeeps(s, t);
      }
      var original := tcbs[t].notify;
      tcbs := tcbs[t := tcbs[t].(notify := Received)];
      if original == Waiting {
        var higher := tcbs[t].priority > S.Priority(View(), current);
        Unblock(t);
        if higher {
          switchRequested := true;
        }
      }
    }

    /** xTaskGenericNotifyFromISR */
    method GenericNotifyFromISR(t: Task)
      requires t in tcbs
      modifies this
      ensures View() == S.NotifyFromISR(old(View()), t)
      ensures old(Invariant(View()) && Enabled(View(), NotifiedFromISR(t))) ==> Invariant(View())
    {
      hide Invariant, Wake, Enabled;
      NotifyFromISRKeeps(View(), t);
      var original := tcbs[t].notify;
      tcbs := tcbs[t := tcbs[t].(notify := Received)];
      if original == Waiting {
        var higher := tcbs[t].priority > S.Priority(View(), current);
        if suspended == 0 {
          Unblock(t);
        } else {
          HoldPending(t);
        }
        if higher {
          yieldPending, switchRequested := true, true;
        }
      }
    }

    /** vTaskRemoveFromUnorderedEventList */
    method RemoveFromUnorderedEventList(t: Task)
      requires t in tcbs
      modifies this
      ensures View() == S.RemoveFromUnordered(old(View()), t)
      ensures old(Invariant(View()) && Enabled(View(), UnorderedEventOccurs(t))) ==> Invariant(View())
    {
      hide Invariant, Wake;
      ghost var s := View();
      if Invariant(s) && Enabled(s, UnorderedEventOccurs(t)) {
        EventKeeps(s, t);
      }
      var higher := tcbs[t].priority > S.Priority(View(), current);
      Unblock(t);
      if higher {
        yieldPending := true;
      }
    }

    /** The body of xTaskAbortDelay */
    method AbortDelayOf(t: Task)
      requires t in tcbs
      modifies this
      ensures View() == S.AbortDelay(old(View()), t)
      ensures old(Invariant(View()) && Enabled(View(), Abort(t))) ==> Invariant(View())
    {
      hide Invariant, Wake;
      ghost var s := View();
      if Invariant(s) && Enabled(s, Abort(t)) {
        AbortKeeps(s, t);
      }
      if t != current && S.Blocked(View(), t) {
        var higher := tcbs[t].priority > S.Priority(View(), current);
        Unblock(t);
        if higher {
          yieldPending := true;
        }
      }
    }

    /** Blocking on time alone, on an event list, or on a notification. */
    method BlockCurrent(ticks: nat, indefinitely: bool, kind: S.BlockKind)
      requires current in tcbs
      modifies this
      ensures View() == S.Block(old(View()), ticks, indefinitely, kind)
      ensures old(Invariant(View()) && Enabled(View(), BlockFor(ticks, indefinitely, kind))) ==> Invariant(View())
    {
      hide Invariant, S.AddToDelayed;
      ghost var s := View();
      if Invariant(s) && Enabled(s, BlockFor(ticks, indefinitely, kind)) {
        BlockKeeps(s, ticks, indefinitely, kind);
      }
      DelayedFields(View(), ticks, indefinitely);
      AddCurrentToDelayedList(ticks, indefinitely);
      match kind {
        case Delay =>
        case OnEvent => tcbs := tcbs[current := tcbs[current].(event := OnObject)];
        case OnNotify =>
          tcbs := tcbs[current := tcbs[current].(notify := Waiting)];
          switchRequested := true;
      }
    }

    /** The tick interrupt */
    method TickHandler()
      requires Core(View())
      modifies this
      ensures View() == S.TickInterrupt(old(View()))
      ensures old(Invariant(View()) && Enabled(View(), TickOccurs)) ==> Invariant(View())
    {
      hide Invariant, Linked, EventsAgree, S.CountTick;
      ghost var s := View();
      if Invariant(s) && Enabled(s, TickOccurs) {
        TickKeeps(s);
      }
      interrupts := interrupts + 1;
      var running := suspended == 0;
      if running {
        SwitchFlagStays(View());
      }
      var switchRequired := IncrementTick();
      if switchRequired {
        switchRequested := true;
      }
    }

    // ---- Suspension, deletion, priority ----

    /** vTaskSuspend */
    method Suspend(t: Task)
      requires Settled(View()) && Live(View(), t) && t != idle
      modifies this
      ensures View() == S.SuspendTask(old(View()), t)
      ensures old(Invariant(View()) && Enabled(View(), SuspendOne(t))) ==> Invariant(View())
    {
      hide Invariant, Linked, EventsAgree, InWakeOrder, BitsAgree, NoLoose, S.ToSuspended, S.ResetNextUnblock;
      ghost var s := View();
      if Invariant(s) && Enabled(s, SuspendOne(t)) {
        SuspendKeeps(s, t);
      }
      SuspendSettled(View(), t);
      ResetFields(S.ToSuspended(View(), t));
      MoveToSuspended(t);
      ResetNextUnblockTime();
      if t == current {
        switchRequested := true;
      }
    }

    method MoveToSuspended(t: Task)
      requires Settled(View()) && Live(View(), t)
      modifies this
      ensures View() == S.ToSuspended(old(View()), t)
    {
      hide Settled, UnlinkReset, ClearEvent, Append, Detached, Without;
      var v := if tcbs[t].notify == Waiting then NotWaiting else tcbs[t].notify;
      SuspendFields(View(), t, Suspended, v);
      UnlinkFields(View(), t);
      TakeOut(View(), t);
      RemoveAndReset(t);
      RemoveEventItem(t);
      AppendStateItem(t, Suspended);
      if tcbs[t].notify == Waiting {
        tcbs := tcbs[t := tcbs[t].(notify := NotWaiting)];
      }
    }

    /** vTaskResume */
    method Resume(t: Task)
      requires t in tcbs
      modifies this
      ensures View() == S.ResumeTask(old(View()), t)
      ensures old(Invariant(View()) && Enabled(View(), ResumeOne(t))) ==> Invariant(View())
    {
      hide Invariant, Wake;
      ghost var s := View();
      if Invariant(s) && Enabled(s, ResumeOne(t)) {
        ResumeKeeps(s, t);
      }
      if t != current && S.IsSuspended(View(), t) {
        var outranks := tcbs[t].priority >= S.Priority(View(), current);
        Unblock(t);
        if outranks {
          switchRequested := true;
        }
      }
    }

    /** xTaskResumeFromISR */
    method ResumeFromISR(t: Task)
      requires t in tcbs
      modifies this
      ensures View() == S.ResumeFromISR(old(View()), t)
      ensures old(Invariant(View()) && Enabled(View(), ResumeOneFromISR(t))) ==> Invariant(View())
    {
      hide Invariant, Wake;
      ghost var s := View();
      if Invariant(s) && Enabled(s, ResumeOneFromISR(t)) {
        ResumeKeeps(s, t);
      }
      if S.IsSuspended(View(), t) {
        if suspended == 0 {
          var outranks := tcbs[t].priority >= S.Priority(View(), current);
          Unblock(t);
          if outranks {
            yieldPending, switchRequested := true, true;
          }
        } else {
          HoldPending(t);
        }
      }
    }

    /** xTaskCreate, with the scheduler running */
    method CreateTask(t: Task, p: nat)
      requires t !in tcbs
      modifies this
      ensures View() == S.Create(old(View()), t, p)
      ensures old(Invariant(View()) && Enabled(View(), KernelCalls.CreateTask(t, p))) ==> Invariant(View())
    {
      hide Invariant, Readied, Enabled;
      CreateInvariant(View(), t, p);
      total := total + 1;
      var outranks := S.Priority(View(), current) < p;
      tcbs := tcbs[t := Tcb(p, Nowhere, 0, 0, Free, NotWaiting)];
      ReadiedFields(View(), t);
      AddToReadyList(t);
      if outranks {
        switchRequested := true;
      }
    }

    /** Takes the task out of every list and event list. */
    method RemoveFromLists(t: Task)
      requires Settled(View()) && Live(View(), t)
      modifies this
      ensures View() == ClearEvent(UnlinkReset(old(View()), t), t)
    {
      hide Settled, UnlinkReset, ClearEvent, Detached;
      TakeOut(View(), t);
      RemoveAndReset(t);
      RemoveEventItem(t);
    }

    /** vTaskDelete: a task cannot free its own control block, so it leaves that to the idle task. */
    method DeleteTask(t: Task)
      requires Settled(View()) && Live(View(), t) && t != idle
      modifies this
      ensures View() == S.Delete(old(View()), t)
      ensures old(Invariant(View()) && Enabled(View(), KernelCalls.DeleteTask(t))) ==> Invariant(View())
    {
      hide Invariant, Settled, UnlinkReset, ClearEvent, Append, Detached, Without, S.ResetNextUnblock;
      DeleteInvariant(View(), t);
      TakeOut(View(), t);
      RemoveFromLists(t);
      if t == current {
        AppendFields(View(), t, Terminating);
        AppendStateItem(t, Terminating);
        deleted := deleted + 1;
        switchRequested := true;
      } else {
        Forget(View(), t);
        tcbs := tcbs - {t};
        total := total - 1;
        SettledIsCore(View());
        ResetNextUnblockTime();
      }
    }

    /** vTaskPrioritySet for a task that is not using an inherited priority. */
    method SetPriority(t: Task, p: nat)
      requires t in tcbs
      modifies this
      ensures View() == S.PrioritySet(old(View()), t, p)
      ensures old(Invariant(View()) && Enabled(View(), KernelCalls.SetPriority(t, p))) ==> Invariant(View())
    {
      hide Invariant, UnlinkReset, Unlink, Readied;
      ghost var s := View();
      if Invariant(s) && Enabled(s, KernelCalls.SetPriority(t, p)) {
        PriorityKeeps(s, t, p);
      }
      UnlinkFields(View(), t);
      var was := tcbs[t].priority;
      if was != p {
        var yieldRequired := false;
        if p > was {
          if t != current && p >= S.Priority(View(), current) {
            yieldRequired := true;
          }
        } else if t == current {
          yieldRequired := true;
        }
        if tcbs[t].container == Ready(was) {
          RemoveAndReset(t);
          tcbs := tcbs[t := tcbs[t].(priority := p)];
          AddToReadyList(t);
        } else {
          tcbs := tcbs[t := tcbs[t].(priority := p)];
        }
        if yieldRequired {
          switchRequested := true;
        }
      }
    }
  }

  lemma NotifyFromISRKeeps(s: State, t: Task)
    requires t in s.tcbs
    ensures Invariant(s) && Enabled(s, NotifiedFromISR(t)) ==> Invariant(S.NotifyFromISR(s, t))
  {
    hide Invariant, S.NotifyFromISR;
    if Invariant(s) && Enabled(s, NotifiedFromISR(t)) {
      NotifyKeeps(s, t);
    }
  }

  lemma CreateInvariant(s: State, t: Task, p: nat)
    requires t !in s.tcbs
    ensures Invariant(s) && Enabled(s, KernelCalls.CreateTask(t, p)) ==> Invariant(S.Create(s, t, p))
  {
    hide Invariant, S.Create;
    if Invariant(s) && Enabled(s, KernelCalls.CreateTask(t, p)) {
      CreateKeeps(s, t, p);
    }
  }

  lemma DeleteInvariant(s: State, t: Task)
    requires t in s.tcbs
    ensures Invariant(s) && Enabled(s, KernelCalls.DeleteTask(t)) ==> Invariant(S.Delete(s, t))
  {
    hide Invariant, S.Delete;
    if Invariant(s) && Enabled(s, KernelCalls.DeleteTask(t)) {
      if t == s.current { DeleteSelfKeeps(s, t); } else { DeleteOtherKeeps(s, t); }
    }
  }

  lemma SettledIsCore(s: State)
    requires Settled(s)
    ensures Core(s)
  {
  }

  lemma DelayedFields(s: State, ticks: nat, indefinitely: bool)
    requires s.current in s.tcbs
    ensures var r := S.AddToDelayed(s, ticks, indefinitely);
      r.current == s.current && r.tcbs.Keys == s.tcbs.Keys
  {
    hide UnlinkReset, Append, InsertByWake, Wrap;
    var t := s.current;
    UnlinkFields(s, t);
    var s1 := UnlinkReset(s, t);
    AppendFields(s1, t, Suspended);
    var wake := Wrap(s.tick + ticks, s.modulus);
    var s2 := With(s1, t, s1.tcbs[t].(wake := wake, due := s.now + ticks));
    InsertFields(s2, t, Timed(!s.second));
    InsertFields(s2.(nextUnblock := if wake < s.nextUnblock then wake else s.nextUnblock), t, Timed(s.second));
  }

  lemma SwitchFlagStays(s: State)
    requires Core(s)
    ensures S.CountTick(s).0.switchRequested == s.switchRequested
  {
    hide Linked, EventsAgree;
    if S.Count(s).tick >= S.Count(s).nextUnblock {
      DrainKeepsSuspension(S.Count(s));
    }
  }

  lemma DrainTurnOnce(s: State, t: Task)
    requires Core(s) && Of(s.lists, Timed(s.second)).items != [] && t == Of(s.lists, Timed(s.second)).items[0]
    requires t in s.tcbs && s.tick >= s.tcbs[t].wake
    ensures var r := Wake(s, t);
      && Core(r) && r.current == s.current && r.modulus == s.modulus && r.second == s.second
      && t in r.tcbs && r.tcbs[t].priority == s.tcbs[t].priority && S.Priority(r, s.current) == S.Priority(s, s.current)
      && S.Drain(s).0 == S.Drain(r).0
      && S.Drain(s).1 == (S.Drain(r).1 || S.Priority(s, t) >= S.Priority(s, s.current))
      && |Of(r.lists, Timed(s.second)).items| < |Of(s.lists, Timed(s.second)).items|
  {
    hide Linked, EventsAgree, Wake;
    HeadIsTask(s, t);
    S.WakeLists(s, t);
    WakeTcbs(s, t);
  }

  lemma CountKeepsSuspension(s: State)
    requires Core(s)
    ensures S.CountTick(s).0.suspended == s.suspended
  {
    hide Linked, EventsAgree;
    if S.Count(s).tick >= S.Count(s).nextUnblock {
      DrainKeepsSuspension(S.Count(s));
    }
  }

  lemma {:induction false} DrainKeepsSuspension(s: State)
    requires Core(s)
    ensures S.Drain(s).0.suspended == s.suspended && S.Drain(s).0.switchRequested == s.switchRequested
    decreases |Of(s.lists, Timed(s.second)).items|
  {
    hide Linked, EventsAgree, Wake;
    var l := Of(s.lists, Timed(s.second)).items;
    if l != [] {
      HeadIsTask(s, l[0]);
      if s.tick >= s.tcbs[l[0]].wake {
        S.WakeLists(s, l[0]);
        WakeTcbs(s, l[0]);
        DrainKeepsSuspension(Wake(s, l[0]));
      }
    }
  }

  lemma {:induction false} MovePendingKeepsSuspension(s: State)
    requires Core(s)
    ensures S.MovePending(s).suspended == s.suspended && S.MovePending(s).pendedTicks == s.pendedTicks
    decreases |s.pending|
  {
    hide Linked, Wake;
    if s.pending != [] {
      var t := s.pending[0];
      assert t in s.pending;
      WakeCore(s, t);
      WakeTcbs(s, t);
      WithoutMembers(s.pending, t);
      var s1 := Wake(s, t);
      MovePendingKeepsSuspension(
        if S.Priority(s, t) >= S.Priority(s, s.current) then s1.(yieldPending := true) else s1);
    }
  }

  lemma {:induction false} ReplayKeepsSuspension(s: State, n: nat)
    requires Core(s)
    ensures S.Replay(s, n).suspended == s.suspended
    decreases n
  {
    hide Linked, EventsAgree, S.CountTick;
    if n > 0 {
      S.CountTickCore(s);
      CountKeepsSuspension(s);
      ReplayKeepsSuspension(S.Flagged(S.CountTick(s)), n - 1);
    }
  }

  lemma HeadIsTask(s: State, t: Task)
    requires Core(s) && Of(s.lists, Timed(s.second)).items != [] && t == Of(s.lists, Timed(s.second)).items[0]
    ensures t in s.tcbs && s.tcbs[t].container == Timed(s.second)
  {
    assert t in Of(s.lists, Timed(s.second)).items;
  }
}
