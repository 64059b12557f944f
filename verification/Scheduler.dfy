/** The operations of tasks.c as functions of the scheduler state, loops included. */
module Scheduler {
  import opened SeqLists
  import opened TickTime
  import opened RoundRobin
  import opened Kernel

  function Priority(s: State, t: Task): nat {
    if t in s.tcbs then s.tcbs[t].priority else 0
  }

  // ---- Ticks ----

  /** prvResetNextTaskUnblockTime */
  function ResetNextUnblock(s: State): State {
    var l := Of(s.lists, Timed(s.second)).items;
    s.(nextUnblock := if l == [] then s.modulus - 1 else Wakes(s.tcbs, l)[0])
  }

  lemma WakeLists(s: State, t: Task)
    requires Core(s) && t in s.tcbs
    ensures Core(Wake(s, t))
    ensures !s.tcbs[t].container.Ready? ==>
              |Of(Wake(s, t).lists, s.tcbs[t].container).items| ==
              |Of(s.lists, s.tcbs[t].container).items| - (if s.tcbs[t].container == Nowhere then 0 else 1)
    ensures forall l :: l != Ready(s.tcbs[t].priority) ==>
              Of(Wake(s, t).lists, l).items == Without(Of(s.lists, l).items, t)
  {
    WakeCore(s, t);
    UnlinkCore(s, t);
    var s1, p := Unlink(s, t), s.tcbs[t].priority;
    OfUpdate(s1.lists, Ready(p), Add(Of(s1.lists, Ready(p)), t));
    WithoutMembers(Of(s.lists, s.tcbs[t].container).items, t);
  }

  /** The loop of xTaskIncrementTick: wakes the expired heads of the delayed list. */
  function Drain(s: State): (r: (State, bool))
    requires Core(s)
    decreases |Of(s.lists, Timed(s.second)).items|
  {
    var l := Of(s.lists, Timed(s.second)).items;
    if l == [] then (s.(nextUnblock := s.modulus - 1), false)
    else
      var t := l[0];
      assert t in l;
      if s.tick < s.tcbs[t].wake then (s.(nextUnblock := s.tcbs[t].wake), false)
      else
        WakeLists(s, t);
        var r := Drain(Wake(s, t));
        (r.0, r.1 || Priority(s, t) >= Priority(s, s.current))
  }

  /** Moves the tick count on, exchanging the two delayed lists when it wraps. */
  function Count(s: State): State {
    var s1 := s.(tick := (s.tick + 1) % s.modulus, now := s.now + 1);
    if s1.tick == 0 then ResetNextUnblock(s1.(second := !s1.second)) else s1
  }

  /** xTaskIncrementTick with the scheduler running; the flag asks for a context switch. */
  function CountTick(s: State): (State, bool)
    requires Core(s)
  {
    var s1 := Count(s);
    var r := if s1.tick >= s1.nextUnblock then Drain(s1) else (s1, false);
    (r.0, r.1 || |Of(r.0.lists, Ready(Priority(r.0, r.0.current))).items| > 1 || r.0.yieldPending)
  }

  /** The tick interrupt: xTaskIncrementTick, and the switch its result asks for. */
  function TickInterrupt(s: State): State
    requires Core(s)
  {
    var s0 := s.(interrupts := s.interrupts + 1);
    if s.suspended > 0 then s0.(pendedTicks := (s.pendedTicks + 1) % s.modulus)
    else
      var r := CountTick(s0);
      r.0.(switchRequested := s.switchRequested || r.1)
  }

  // ---- Suspending and resuming the scheduler ----

  /** The loop of xTaskResumeAll over xPendingReadyList. */
  function MovePending(s: State): State
    requires Core(s)
    decreases |s.pending|
  {
    if s.pending == [] then s else
      var t := s.pending[0];
      assert t in s.pending;
      WakeCore(s, t);
      var s1 := Wake(s, t);
      WithoutMembers(s.pending, t);
      MovePending(if Priority(s, t) >= Priority(s, s.current) then s1.(yieldPending := true) else s1)
  }

  lemma DrainCore(s: State)
    requires Core(s)
    ensures Core(Drain(s).0) && Drain(s).0.current == s.current
    decreases |Of(s.lists, Timed(s.second)).items|
  {
    var l := Of(s.lists, Timed(s.second)).items;
    if l != [] {
      assert l[0] in l;
      if s.tick >= s.tcbs[l[0]].wake {
        WakeLists(s, l[0]);
        DrainCore(Wake(s, l[0]));
      }
    }
  }

  lemma MovePendingCore(s: State)
    requires Core(s)
    ensures Core(MovePending(s)) && MovePending(s).pending == []
    decreases |s.pending|
  {
    if s.pending != [] {
      var t := s.pending[0];
      assert t in s.pending;
      WakeCore(s, t);
      WithoutMembers(s.pending, t);
      var s1 := Wake(s, t);
      MovePendingCore(if Priority(s, t) >= Priority(s, s.current) then s1.(yieldPending := true) else s1);
    }
  }

  lemma CountTickCore(s: State)
    requires Core(s)
    ensures Core(CountTick(s).0)
    ensures CountTick(s).0.current == s.current
  {
    var s1 := Count(s);
    if s1.tick >= s1.nextUnblock {
      DrainCore(s1);
    }
  }

  /** The loop of xTaskResumeAll over the ticks that occurred meanwhile. */
  function Replay(s: State, n: nat): State
    requires Core(s)
    decreases n
  {
    if n == 0 then s else
      CountTickCore(s);
      Replay(Flagged(CountTick(s)), n - 1)
  }

  function Flagged(r: (State, bool)): State {
    if r.1 then r.0.(yieldPending := true) else r.0
  }

  /** xTaskResumeAll, once uxSchedulerSuspended is back at zero. */
  function Resumed(s: State): State
    requires Core(s)
  {
    MovePendingCore(s);
    var s1 := MovePending(s);
    var s2 := if s.pending == [] then s1 else ResetNextUnblock(s1);
    var s3 := Replay(s2, s2.pendedTicks).(pendedTicks := 0);
    if s3.yieldPending then s3.(switchRequested := true) else s3
  }

  /** xTaskResumeAll */
  function ResumeAll(s: State): State
    requires Core(s) && s.suspended > 0
  {
    var s0 := s.(suspended := s.suspended - 1);
    if s0.suspended > 0 then s0 else Resumed(s0)
  }

  // ---- Selection ----

  /** The downward scan of taskSELECT_HIGHEST_PRIORITY_TASK. */
  function Scan(lists: Lists, top: nat): (p: nat)
    ensures p <= top
    ensures forall q :: p < q <= top ==> Of(lists, Ready(q)).items == []
  {
    if top == 0 || Of(lists, Ready(top)).items != [] then top else Scan(lists, top - 1)
  }

  /** vTaskSwitchContext */
  function SwitchContext(s: State): State
    requires s.suspended == 0 ==> Of(s.lists, Ready(Scan(s.lists, s.top))).items != []
  {
    if s.suspended > 0 then s.(yieldPending := true, switchRequested := false)
    else
      var p := Scan(s.lists, s.top);
      var w := Advance(Of(s.lists, Ready(p)));
      s.(yieldPending := false, switchRequested := false, top := p,
         lists := s.lists[Ready(p) := w], current := w.items[w.cursor - 1])
  }

  // ---- Blocking ----

  datatype BlockKind = Delay | OnEvent | OnNotify

  /** prvAddCurrentTaskToDelayedList */
  function AddToDelayed(s: State, ticks: nat, indefinitely: bool): State
    requires s.current in s.tcbs
  {
    var t := s.current;
    var s1 := UnlinkReset(s, t);
    if ticks == s.modulus - 1 && indefinitely then Append(s1, t, Suspended)
    else
      var wake := Wrap(s.tick + ticks, s.modulus);
      var s2 := With(s1, t, s1.tcbs[t].(wake := wake, due := s.now + ticks));
      if wake < s.tick then InsertByWake(s2, t, Timed(!s.second))
      else InsertByWake(s2.(nextUnblock := if wake < s.nextUnblock then wake else s.nextUnblock), t, Timed(s.second))
  }

  /** Blocking on time alone, on an event list, or on a notification. */
  function Block(s: State, ticks: nat, indefinitely: bool, kind: BlockKind): State
    requires s.current in s.tcbs
  {
    var t, s2 := s.current, AddToDelayed(s, ticks, indefinitely);
    match kind
    case Delay => s2
    case OnEvent => With(s2, t, s2.tcbs[t].(event := OnObject))
    case OnNotify => With(s2, t, s2.tcbs[t].(notify := Waiting)).(switchRequested := true)
  }

  // ---- Unblocking ----

  /** xTaskRemoveFromEventList, for the task at the head of the list. */
  function RemoveFromEvent(s: State, t: Task): State
    requires t in s.tcbs
  {
    var s1 := if s.suspended == 0 then Wake(s, t) else Hold(s, t);
    if Priority(s, t) > Priority(s, s.current) then s1.(yieldPending := true) else s1
  }

  /** Keeps the task in xPendingReadyList until the scheduler is resumed. */
  function Hold(s: State, t: Task): State
    requires t in s.tcbs
  {
    With(s.(pending := s.pending + [t]), t, s.tcbs[t].(event := OnPending))
  }

  /** vTaskRemoveFromUnorderedEventList */
  function RemoveFromUnordered(s: State, t: Task): State
    requires t in s.tcbs
  {
    var s1 := Wake(s, t);
    if Priority(s, t) > Priority(s, s.current) then s1.(yieldPending := true) else s1
  }

  /** xTaskGenericNotify; the notification value itself is not modelled. */
  function Notify(s: State, t: Task): State
    requires t in s.tcbs
  {
    var s0 := With(s, t, s.tcbs[t].(notify := Received));
    if s.tcbs[t].notify != Waiting then s0 else
      var s1 := Wake(s0, t);
      if Priority(s, t) > Priority(s, s.current) then s1.(switchRequested := true) else s1
  }

  /** xTaskGenericNotifyFromISR */
  function NotifyFromISR(s: State, t: Task): State
    requires t in s.tcbs
  {
    var s0 := With(s, t, s.tcbs[t].(notify := Received));
    if s.tcbs[t].notify != Waiting then s0 else
      var s1 := if s.suspended == 0 then Wake(s0, t) else Hold(s0, t);
      if Priority(s, t) > Priority(s, s.current) then s1.(yieldPending := true, switchRequested := true) else s1
  }

  /** eTaskGetState(t) == eBlocked, for a task other than the running one. */
  predicate Blocked(s: State, t: Task)
    requires t in s.tcbs
  {
    var b := s.tcbs[t];
    b.container.Timed? || (b.container == Suspended && (b.event != Free || b.notify == Waiting))
  }

  /** The body of xTaskAbortDelay, inside its suspended region. */
  function AbortDelay(s: State, t: Task): State
    requires t in s.tcbs
  {
    if t == s.current || !Blocked(s, t) then s else
      var s1 := Wake(s, t);
      if Priority(s, t) > Priority(s, s.current) then s1.(yieldPending := true) else s1
  }

  // ---- Creation, deletion, suspension, priority ----

  /** xTaskCreate with the scheduler running. */
  function Create(s: State, t: Task, p: nat): State {
    var s1 := With(s, t, Tcb(p, Nowhere, 0, 0, Free, NotWaiting)).(total := s.total + 1);
    var s2 := Readied(s1, t);
    if Priority(s, s.current) < p then s2.(switchRequested := true) else s2
  }

  /** vTaskDelete */
  function Delete(s: State, t: Task): State
    requires t in s.tcbs
  {
    var s1 := ClearEvent(UnlinkReset(s, t), t);
    if t == s.current then
      Append(s1, t, Terminating).(deleted := s.deleted + 1, switchRequested := true)
    else
      ResetNextUnblock(s1.(tcbs := s1.tcbs - {t}, total := if s.total > 0 then s.total - 1 else 0))
  }

  /** One turn of the loop in prvCheckTasksWaitingTermination. */
  function CleanUp(s: State): State
    requires s.deleted > 0 && s.total > 0 && Of(s.lists, Terminating).items != []
    requires Of(s.lists, Terminating).items[0] in s.tcbs
  {
    var t := Of(s.lists, Terminating).items[0];
    var s1 := Unlink(s, t);
    s1.(tcbs := s1.tcbs - {t}, total := s.total - 1, deleted := s.deleted - 1)
  }

  /** The first critical section of vTaskSuspend. */
  function ToSuspended(s: State, t: Task): State
    requires t in s.tcbs
  {
    var s1 := Append(ClearEvent(UnlinkReset(s, t), t), t, Suspended);
    With(s1, t, s1.tcbs[t].(notify := if s.tcbs[t].notify == Waiting then NotWaiting else s.tcbs[t].notify))
  }

  /** vTaskSuspend */
  function SuspendTask(s: State, t: Task): State
    requires t in s.tcbs
  {
    var s1 := ResetNextUnblock(ToSuspended(s, t));
    if t == s.current then s1.(switchRequested := true) else s1
  }

  /** prvTaskIsTaskSuspended */
  predicate IsSuspended(s: State, t: Task)
    requires t in s.tcbs
  {
    s.tcbs[t].container == Suspended && s.tcbs[t].event == Free
  }

  /** vTaskResume */
  function ResumeTask(s: State, t: Task): State
    requires t in s.tcbs
  {
    if t == s.current || !IsSuspended(s, t) then s else
      var s1 := Wake(s, t);
      if Priority(s, t) >= Priority(s, s.current) then s1.(switchRequested := true) else s1
  }

  /** xTaskResumeFromISR */
  function ResumeFromISR(s: State, t: Task): State
    requires t in s.tcbs
  {
    if !IsSuspended(s, t) then s
    else if s.suspended > 0 then Hold(s, t)
    else
      var s1 := Wake(s, t);
      if Priority(s, t) >= Priority(s, s.current) then s1.(yieldPending := true, switchRequested := true) else s1
  }

  /** vTaskPrioritySet for a task that is not using an inherited priority. */
  function PrioritySet(s: State, t: Task, p: nat): State
    requires t in s.tcbs
  {
    var b := s.tcbs[t];
    if b.priority == p then s else
      var mustYield := if p > b.priority then t != s.current && p >= Priority(s, s.current) else t == s.current;
      var s1 :=
        if b.container == Ready(b.priority) then
          var u := UnlinkReset(s, t);
          Readied(With(u, t, u.tcbs[t].(priority := p)), t)
        else With(s, t, b.(priority := p));
      if mustYield then s1.(switchRequested := true) else s1
  }
}
