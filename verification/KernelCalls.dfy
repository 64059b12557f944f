/** The scheduler as a machine: which calls are possible, what each does, and what every run keeps. */
module KernelCalls {
  import opened SeqLists
  import opened RoundRobin
  import opened Kernel
  import opened Scheduler
  import opened KernelInvariant
  import opened KernelTicks
  import opened KernelSteps

  datatype Call =
    | CreateTask(task: Task, priority: nat)
    | DeleteTask(task: Task)
    | CleanUpOne
    | BlockFor(ticks: nat, indefinitely: bool, kind: BlockKind)
    | TickOccurs
    | SuspendScheduler
    | ResumeScheduler
    | CatchUp(ticks: nat)
    | ContextSwitch
    | Yield
    | Notified(task: Task)
    | NotifiedFromISR(task: Task)
    | ClearNotification
    | EventOccurs(task: Task)
    | UnorderedEventOccurs(task: Task)
    | SuspendOne(task: Task)
    | ResumeOne(task: Task)
    | ResumeOneFromISR(task: Task)
    | Abort(task: Task)
    | SetPriority(task: Task, priority: nat)

  ghost predicate Live(s: State, t: Task) {
    t in s.tcbs && s.tcbs[t].container != Terminating
  }

  /** What the source demands of the callers, by assertion or by the place it is called from. */
  ghost predicate Enabled(s: State, c: Call) {
    match c
    case CreateTask(t, p) => t !in s.tcbs && p < s.levels
    case DeleteTask(t) => Live(s, t) && t != s.idle && (t == s.current ==> s.suspended == 0)
    case CleanUpOne => s.current == s.idle && s.deleted > 0
    case BlockFor(n, indefinitely, kind) =>
      && s.current in s.tcbs && s.current != s.idle
      && s.tcbs[s.current].container.Ready? && s.tcbs[s.current].event == Free
      && 0 < n < s.modulus
      && if kind == OnNotify then s.suspended == 0 else s.suspended > 0
    case TickOccurs => s.suspended > 0 ==> s.pendedTicks + 1 < s.modulus
    case SuspendScheduler => true
    case ResumeScheduler => s.suspended > 0
    case CatchUp(n) => s.suspended > 0 && s.pendedTicks + n < s.modulus
    case ContextSwitch => true
    case Yield => true
    case Notified(t) => Live(s, t) && (s.tcbs[t].notify == Waiting ==> s.tcbs[t].event == Free)
    case NotifiedFromISR(t) => Live(s, t) && (s.tcbs[t].notify == Waiting ==> s.tcbs[t].event == Free)
    case ClearNotification => s.current in s.tcbs
    case EventOccurs(t) => t in s.tcbs && s.tcbs[t].event == OnObject
    case UnorderedEventOccurs(t) => t in s.tcbs && s.tcbs[t].event == OnObject && s.suspended > 0
    case SuspendOne(t) => Live(s, t) && t != s.idle && (t == s.current ==> s.suspended == 0)
    case ResumeOne(t) => Live(s, t)
    case ResumeOneFromISR(t) => Live(s, t)
    case Abort(t) => Live(s, t) && s.suspended > 0
    case SetPriority(t, p) => Live(s, t) && p < s.levels
  }

  // ---- Selection ----

  lemma {:induction false} ScanFinds(lists: Lists, top: nat, q: nat)
    requires q <= top && Of(lists, Ready(q)).items != []
    ensures q <= Scan(lists, top) && Of(lists, Ready(Scan(lists, top))).items != []
  {
    if top > 0 && Of(lists, Ready(top)).items == [] {
      ScanFinds(lists, top - 1, q);
    }
  }

  /** The downward scan ends at the highest ready priority: no task at all being ready is impossible. */
  lemma ScanIsHighest(s: State)
    requires Settled(s)
    ensures Of(s.lists, Ready(Scan(s.lists, s.top))).items != []
    ensures Scan(s.lists, s.top) in s.bitmap
    ensures forall p :: p in s.bitmap ==> p <= Scan(s.lists, s.top)
  {
    hide EventsAgree, InWakeOrder, NoLoose;
    LevelIsPriority(s, s.idle);
    ScanFinds(s.lists, s.top, s.tcbs[s.idle].priority);
    forall p | p in s.bitmap ensures p <= Scan(s.lists, s.top) {
      ScanFinds(s.lists, s.top, p);
    }
  }

  /** The port-optimised choice, the highest bit set, is the one the generic scan finds. */
  lemma OptimisedSelection(s: State, highest: nat)
    requires Settled(s)
    requires highest in s.bitmap && forall p :: p in s.bitmap ==> p <= highest
    ensures highest == Scan(s.lists, s.top)
  {
    ScanIsHighest(s);
  }

  ghost function Perform(s: State, c: Call): State
    requires Invariant(s) && Enabled(s, c)
  {
    hide Linked, EventsAgree, InWakeOrder, BitsAgree, NoLoose, TimesAgree, TopRuns;
    match c
    case CreateTask(t, p) => Create(s, t, p)
    case DeleteTask(t) => Delete(s, t)
    case CleanUpOne => CleanUpHead(s); CleanUp(s)
    case BlockFor(n, indefinitely, kind) => Block(s, n, indefinitely, kind)
    case TickOccurs => TickInterrupt(s)
    case SuspendScheduler => s.(suspended := s.suspended + 1)
    case ResumeScheduler => ResumeAll(s)
    case CatchUp(n) => s.(pendedTicks := s.pendedTicks + n, interrupts := s.interrupts + n)
    case ContextSwitch => ScanIsHighest(s); SwitchContext(s)
    case Yield => s.(switchRequested := true)
    case Notified(t) => Notify(s, t)
    case NotifiedFromISR(t) => NotifyFromISR(s, t)
    case ClearNotification => With(s, s.current, s.tcbs[s.current].(notify := NotWaiting))
    case EventOccurs(t) => RemoveFromEvent(s, t)
    case UnorderedEventOccurs(t) => RemoveFromUnordered(s, t)
    case SuspendOne(t) => SuspendTask(s, t)
    case ResumeOne(t) => ResumeTask(s, t)
    case ResumeOneFromISR(t) => ResumeFromISR(s, t)
    case Abort(t) => AbortDelay(s, t)
    case SetPriority(t, p) => PrioritySet(s, t, p)
  }

  lemma CleanUpHead(s: State)
    requires Settled(s) && s.deleted > 0
    ensures var l := Of(s.lists, Terminating).items;
      l != [] && l[0] in s.tcbs && s.tcbs[l[0]].container == Terminating && s.total > 0
  {
    var l := Of(s.lists, Terminating).items;
    assert l[0] in l;
    assert s.tcbs.Keys != {};
  }

  // ---- One lemma a kind of call ----

  lemma CursorOnly(a: Lists, b: Lists, tcbs: map<Task, Tcb>, levels: nat)
    requires Linked(tcbs, a, levels) && InWakeOrder(tcbs, a)
    requires forall k :: Of(b, k).items == Of(a, k).items
    ensures Linked(tcbs, b, levels) && InWakeOrder(tcbs, b)
  {
  }

  /**
   vTaskSwitchContext makes the head of the highest ready list's rotation run and sends it to the end of it;
   no other list changes.
   */
  lemma SwitchKeeps(s: State)
    requires Invariant(s)
    requires Of(s.lists, Ready(Scan(s.lists, s.top))).items != []
    ensures Invariant(SwitchContext(s))
    ensures s.suspended == 0 ==> TopRuns(SwitchContext(s).tcbs, SwitchContext(s).current)
    ensures s.suspended == 0 ==>
      SwitchContext(s).tcbs[SwitchContext(s).current].container == Ready(Scan(s.lists, s.top))
    ensures s.suspended == 0 ==>
      var r, p := SwitchContext(s), Scan(s.lists, s.top);
      && r.current == Of(s.lists, Ready(p)).Rotation()[0]
      && Of(r.lists, Ready(p)).Rotation() == Of(s.lists, Ready(p)).Rotation()[1..] + [r.current]
      && forall l :: l != Ready(p) ==> Of(r.lists, l) == Of(s.lists, l)
    ensures s.suspended > 0 ==> SwitchContext(s) == s.(yieldPending := true, switchRequested := false)
  {
    hide InWakeOrder, EventsAgree, NoLoose, TimesAgree;
    if s.suspended == 0 {
      var r, p := SwitchContext(s), Scan(s.lists, s.top);
      RotationAdvance(Of(s.lists, Ready(p)));
      OfUpdate(s.lists, Ready(p), Advance(Of(s.lists, Ready(p))));
      CursorOnly(s.lists, r.lists, s.tcbs, s.levels);
      assert r.current in Of(r.lists, Ready(p)).items;
      HighestListed(s, p);
    }
  }

  lemma HighestListed(s: State, p: nat)
    requires Settled(s) && forall q :: p < q <= s.top ==> Of(s.lists, Ready(q)).items == []
    ensures forall t :: t in s.tcbs && s.tcbs[t].container.Ready? ==> s.tcbs[t].priority <= p
    ensures BitsAgree(s.lists, s.bitmap, s.top, s.levels) && p <= s.top ==> BitsAgree(s.lists, s.bitmap, p, s.levels)
  {
    forall t | t in s.tcbs && s.tcbs[t].container.Ready? ensures s.tcbs[t].priority <= p {
      LevelIsPriority(s, t);
      assert s.tcbs[t].priority in s.bitmap;
    }
  }

  /** The clock and the scheduler-suspension counts are as they were. */
  ghost predicate Quiet(s: State, r: State) {
    && r.modulus == s.modulus && r.tick == s.tick && r.now == s.now && r.second == s.second
    && r.interrupts == s.interrupts && r.pendedTicks == s.pendedTicks && r.suspended == s.suspended
  }

  /** No task became timed, and no timed task had its wake time changed. */
  ghost predicate NoNewTimes(before: map<Task, Tcb>, after: map<Task, Tcb>) {
    forall t :: t in after && after[t].container.Timed? ==>
      t in before && after[t].container == before[t].container
      && after[t].wake == before[t].wake && after[t].due == before[t].due
  }

  lemma SameTimes(s: State, r: State)
    requires Times(s, s.now + 1) && Quiet(s, r) && r.nextUnblock == s.nextUnblock
    requires NoNewTimes(s.tcbs, r.tcbs)
    ensures Times(r, r.now + 1)
  {
    forall t | t in r.tcbs
      ensures Timely(r.tcbs[t], r.modulus, r.tick, r.now, r.second, r.nextUnblock, r.now + 1)
    {
      if r.tcbs[t].container.Timed? {
        assert Timely(s.tcbs[t], s.modulus, s.tick, s.now, s.second, s.nextUnblock, s.now + 1);
      }
    }
  }

  lemma ResetKeepsTimes(s: State, r: State)
    requires Times(s, s.now + 1) && Quiet(s, r) && NoNewTimes(s.tcbs, r.tcbs)
    requires Core(r) && InWakeOrder(r.tcbs, r.lists)
    ensures Times(ResetNextUnblock(r), r.now + 1)
  {
    hide Linked, EventsAgree, InWakeOrder;
    forall t | t in r.tcbs
      ensures Timely(r.tcbs[t], r.modulus, r.tick, r.now, r.second, 0, r.now + 1)
    {
      if r.tcbs[t].container.Timed? {
        assert Timely(s.tcbs[t], s.modulus, s.tick, s.now, s.second, s.nextUnblock, s.now + 1);
      }
    }
    ResetTimes(r, r.now + 1);
  }

  /** Waking a task keeps the invariant if a switch is asked for whenever the task outranks the running one. */
  lemma WakeKeeps(s: State, t: Task, pend: bool, request: bool)
    requires Invariant(s) && Live(s, t)
    requires pend || request || Priority(s, t) <= Priority(s, s.current)
    ensures Invariant(Wake(s, t).(
      yieldPending := s.yieldPending || pend, switchRequested := s.switchRequested || request))
  {
    hide Linked, EventsAgree, InWakeOrder, BitsAgree, NoLoose, TimesAgree, TopRuns, Wake;
    WakeTcbs(s, t);
    WakeSettled(s, t);
    WakeTimes(s, t, s.now + 1);
    if TopRuns(s.tcbs, s.current) && !pend && !request {
      WakeTop(s, t);
    }
  }

  lemma NotifyStateKeeps(s: State, t: Task, v: Notification)
    requires Invariant(s) && t in s.tcbs
    ensures Invariant(With(s, t, s.tcbs[t].(notify := v)))
  {
    hide BitsAgree, InWakeOrder, Linked, EventsAgree, TimesAgree;
    var b := s.tcbs[t].(notify := v);
    var r := With(s, t, b);
    SameWakes(s, t, b);
    SameEvents(s.tcbs, s.pending, t, b);
    SameLinks(s.tcbs, s.lists, s.levels, t, b);
    SameTimes(s, r);
    assert s.tcbs.Keys == r.tcbs.Keys;
  }

  lemma SameLinks(tcbs: map<Task, Tcb>, lists: Lists, levels: nat, t: Task, b: Tcb)
    requires Linked(tcbs, lists, levels) && t in tcbs
    requires b.container == tcbs[t].container
    requires b.priority == tcbs[t].priority || (!b.container.Ready? && b.priority < levels)
    ensures Linked(tcbs[t := b], lists, levels)
  {
  }

  lemma HoldEvents(s: State, t: Task)
    requires Core(s) && Live(s, t) && t !in s.pending
    ensures EventsAgree(Hold(s, t).tcbs, Hold(s, t).pending)
  {
    hide Linked;
  }

  lemma HoldKeeps(s: State, t: Task, pend: bool, request: bool)
    requires Invariant(s) && Live(s, t) && s.tcbs[t].event != OnPending && s.suspended > 0
    ensures Invariant(Hold(s, t).(
      yieldPending := s.yieldPending || pend, switchRequested := s.switchRequested || request))
  {
    hide BitsAgree, InWakeOrder, Linked, TimesAgree;
    var r := Hold(s, t);
    assert t !in s.pending;
    hide EventsAgree, TopRuns;
    SameWakes(s, t, r.tcbs[t]);
    HoldEvents(s, t);
    SameLinks(s.tcbs, s.lists, s.levels, t, r.tcbs[t]);
    SameTimes(s, r);
    assert s.tcbs.Keys == r.tcbs.Keys;
    SameTop(s.tcbs, t, r.tcbs[t], s.current);
  }

  /** A control block whose container and priority stay the same does not affect who runs. */
  lemma SameTop(tcbs: map<Task, Tcb>, t: Task, b: Tcb, current: Task)
    requires t in tcbs && b.container == tcbs[t].container && b.priority == tcbs[t].priority
    ensures TopRuns(tcbs[t := b], current) <==> TopRuns(tcbs, current)
  {
    if TopRuns(tcbs[t := b], current) {
      forall u | u in tcbs && tcbs[u].container.Ready? && current in tcbs
        ensures tcbs[u].priority <= tcbs[current].priority
      {
        assert u in tcbs[t := b];
      }
    }
  }

  lemma NotifyKeeps(s: State, t: Task)
    requires Invariant(s) && Enabled(s, Notified(t))
    ensures Invariant(Notify(s, t))
    ensures Invariant(NotifyFromISR(s, t))
  {
    hide Linked, EventsAgree, InWakeOrder, BitsAgree, NoLoose, TimesAgree, TopRuns, Wake;
    NotifyStateKeeps(s, t, Received);
    var s0 := With(s, t, s.tcbs[t].(notify := Received));
    var outranks := Priority(s, t) > Priority(s, s.current);
    if s.tcbs[t].notify == Waiting {
      WakeTcbs(s0, t);
      WakeKeeps(s0, t, false, outranks);
      if s.suspended > 0 {
        HoldKeeps(s0, t, outranks, outranks);
      } else {
        WakeKeeps(s0, t, outranks, outranks);
      }
    }
  }

  lemma EventKeeps(s: State, t: Task)
    requires Invariant(s) && Enabled(s, EventOccurs(t))
    ensures Invariant(RemoveFromEvent(s, t)) && t in RemoveFromEvent(s, t).tcbs
    ensures if s.suspended > 0 then t in RemoveFromEvent(s, t).pending
            else RemoveFromEvent(s, t).tcbs[t].container.Ready?
    ensures s.suspended > 0 ==>
              Invariant(RemoveFromUnordered(s, t)) && t in RemoveFromUnordered(s, t).tcbs
              && RemoveFromUnordered(s, t).tcbs[t].container.Ready?
  {
    hide Linked, InWakeOrder, BitsAgree, NoLoose, TimesAgree, TopRuns, Wake;
    WakeTcbs(s, t);
    var outranks := Priority(s, t) > Priority(s, s.current);
    WakeKeeps(s, t, outranks, false);
    if s.suspended > 0 {
      HoldKeeps(s, t, outranks, false);
    }
  }

  lemma AbortKeeps(s: State, t: Task)
    requires Invariant(s) && Enabled(s, Abort(t))
    ensures Invariant(AbortDelay(s, t))
  {
    hide Linked, EventsAgree, InWakeOrder, BitsAgree, NoLoose, TimesAgree, TopRuns, Wake;
    WakeTcbs(s, t);
    WakeKeeps(s, t, Priority(s, t) > Priority(s, s.current), false);
  }

  lemma ResumeKeeps(s: State, t: Task)
    requires Invariant(s) && Live(s, t)
    ensures Invariant(ResumeTask(s, t))
    ensures Invariant(ResumeFromISR(s, t))
  {
    hide Linked, EventsAgree, InWakeOrder, BitsAgree, NoLoose, TimesAgree, TopRuns, Wake;
    WakeTcbs(s, t);
    var outranks := Priority(s, t) >= Priority(s, s.current);
    WakeKeeps(s, t, false, outranks);
    WakeKeeps(s, t, outranks, outranks);
    if s.suspended > 0 && s.tcbs[t].event == Free {
      HoldKeeps(s, t, false, false);
    }
  }

  // ---- Creation, deletion, suspension, priority ----

  lemma ReadiedFields(s: State, t: Task)
    requires t in s.tcbs
    ensures var r := Readied(s, t);
      r == s.(tcbs := s.tcbs[t := s.tcbs[t].(container := Ready(s.tcbs[t].priority))],
              lists := r.lists, top := r.top, bitmap := r.bitmap)
  {
  }

  lemma NewDetached(s: State, t: Task, p: nat)
    requires Settled(s) && t !in s.tcbs && p < s.levels
    ensures Detached(With(s, t, Tcb(p, Nowhere, 0, 0, Free, NotWaiting)).(total := s.total + 1), t)
  {
    hide BitsAgree, Linked, EventsAgree, InWakeOrder;
    var b := Tcb(p, Nowhere, 0, 0, Free, NotWaiting);
    assert s.tcbs[t := b].Keys == s.tcbs.Keys + {t};
    NewLinks(s, t, b);
    NewEvents(s, t, b);
    NewOrder(s, t, b);
  }

  lemma NewLinks(s: State, t: Task, b: Tcb)
    requires Core(s) && t !in s.tcbs && b.container == Nowhere && b.priority < s.levels
    ensures Linked(s.tcbs[t := b], s.lists, s.levels)
  {
    hide EventsAgree;
  }

  lemma NewEvents(s: State, t: Task, b: Tcb)
    requires Core(s) && t !in s.tcbs && b.event == Free
    ensures EventsAgree(s.tcbs[t := b], s.pending)
  {
    hide Linked;
  }

  lemma NewOrder(s: State, t: Task, b: Tcb)
    requires Core(s) && t !in s.tcbs && InWakeOrder(s.tcbs, s.lists)
    ensures InWakeOrder(s.tcbs[t := b], s.lists)
  {
    hide EventsAgree;
    forall c ensures Ascending(Wakes(s.tcbs[t := b], Of(s.lists, Timed(c)).items)) {
      WakesFrame(s.tcbs, Of(s.lists, Timed(c)).items, t, b);
    }
  }

  lemma CreateSettled(s: State, t: Task, p: nat)
    requires Settled(s) && t !in s.tcbs && p < s.levels
    ensures var r := Create(s, t, p);
      && Settled(r) && r.tcbs == s.tcbs[t := Tcb(p, Ready(p), 0, 0, Free, NotWaiting)]
      && r == s.(tcbs := r.tcbs, lists := r.lists, top := r.top, bitmap := r.bitmap, total := r.total,
                 switchRequested := s.switchRequested || Priority(s, s.current) < p)
  {
    hide Linked, EventsAgree, InWakeOrder, BitsAgree, NoLoose, Readied, Detached;
    var s1 := With(s, t, Tcb(p, Nowhere, 0, 0, Free, NotWaiting)).(total := s.total + 1);
    NewDetached(s, t, p);
    JoinReady(s1, t);
    ReadiedFields(s1, t);
  }

  lemma CreateKeeps(s: State, t: Task, p: nat)
    requires Invariant(s) && Enabled(s, CreateTask(t, p))
    ensures Invariant(Create(s, t, p))
  {
    hide Linked, EventsAgree, InWakeOrder, BitsAgree, NoLoose, TimesAgree, Create;
    CreateSettled(s, t, p);
    SameTimes(s, Create(s, t, p));
  }

  lemma UnlinkedFields(s: State, t: Task)
    requires t in s.tcbs
    ensures var r := ClearEvent(UnlinkReset(s, t), t);
      r == s.(tcbs := s.tcbs[t := s.tcbs[t].(container := Nowhere, event := Free)],
              lists := r.lists, bitmap := r.bitmap, pending := Without(s.pending, t))
  {
    UnlinkFields(s, t);
  }

  /** No other task's control block is affected. */
  ghost predicate Changed(before: map<Task, Tcb>, after: map<Task, Tcb>, t: Task) {
    && t in before && after.Keys == before.Keys
    && forall u :: u in before && u != t ==> after[u] == before[u]
  }

  /** Out of every list and event list. */
  lemma TakeOut(s: State, t: Task)
    requires Settled(s) && Live(s, t)
    ensures UnlinkReset(s, t).tcbs == s.tcbs[t := s.tcbs[t].(container := Nowhere)]
    ensures var r := ClearEvent(UnlinkReset(s, t), t);
      && Detached(r, t)
      && r == s.(tcbs := s.tcbs[t := s.tcbs[t].(container := Nowhere, event := Free)],
                 lists := r.lists, bitmap := r.bitmap, pending := Without(s.pending, t))
  {
    hide Linked, EventsAgree, InWakeOrder, BitsAgree, UnlinkReset, ClearEvent;
    UnlinkFields(s, t);
    UnlinkedFields(s, t);
    Detach(s, t);
    DetachedClear(UnlinkReset(s, t), t);
  }

  lemma DeleteSelfKeeps(s: State, t: Task)
    requires Invariant(s) && Enabled(s, DeleteTask(t)) && t == s.current
    ensures Invariant(Delete(s, t))
    ensures var r := Delete(s, t);
      t in r.tcbs && r.tcbs[t].container == Terminating && r.switchRequested && r.deleted == s.deleted + 1
  {
    hide Linked, EventsAgree, InWakeOrder, BitsAgree, TimesAgree, TopRuns, UnlinkReset, ClearEvent, Append;
    TakeOut(s, t);
    var s1 := ClearEvent(UnlinkReset(s, t), t);
    JoinTerminating(s1, t);
    AppendFields(s1, t, Terminating);
    SameTimes(s, Append(s1, t, Terminating));
  }

  lemma DeleteOtherKeeps(s: State, t: Task)
    requires Invariant(s) && Enabled(s, DeleteTask(t)) && t != s.current
    ensures Invariant(Delete(s, t))
    ensures t !in Delete(s, t).tcbs && forall l :: t !in Of(Delete(s, t).lists, l).items
  {
    hide Invariant, Delete;
    DeleteOtherInvariant(s, t);
    OnlyTasksListed(Delete(s, t), t);
  }

  lemma OnlyTasksListed(s: State, t: Task)
    requires Invariant(s) && t !in s.tcbs
    ensures forall l :: t !in Of(s.lists, l).items
  {
    hide EventsAgree, InWakeOrder, BitsAgree, NoLoose, TimesAgree, TopRuns;
  }

  lemma DeleteOtherInvariant(s: State, t: Task)
    requires Invariant(s) && Enabled(s, DeleteTask(t)) && t != s.current
    ensures Invariant(Delete(s, t)) && t !in Delete(s, t).tcbs
  {
    hide Linked, EventsAgree, InWakeOrder, BitsAgree, TimesAgree, UnlinkReset, ClearEvent, ResetNextUnblock;
    TakeOut(s, t);
    var s1 := ClearEvent(UnlinkReset(s, t), t);
    Forget(s1, t);
    var r := s1.(tcbs := s1.tcbs - {t}, total := s1.total - 1);
    ResetKeepsTimes(s, r);
    ResetFields(r);
  }

  lemma ResetFields(s: State)
    ensures ResetNextUnblock(s) == s.(nextUnblock := ResetNextUnblock(s).nextUnblock)
  {
  }

  lemma CleanUpKeeps(s: State)
    requires Invariant(s) && Enabled(s, CleanUpOne)
    ensures s.total > 0 && Of(s.lists, Terminating).items != [] && Of(s.lists, Terminating).items[0] in s.tcbs
    ensures Invariant(CleanUp(s))
  {
    hide Linked, InWakeOrder, BitsAgree, TimesAgree, Unlink;
    CleanUpHead(s);
    var t := Of(s.lists, Terminating).items[0];
    var s1 := Unlink(s, t);
    DeadDetached(s, t);
    UnlinkFields(s, t);
    Forget(s1.(deleted := s.deleted - 1), t);
    SameTimes(s, CleanUp(s));
  }

  lemma DeadCount(s: State, t: Task)
    requires Core(s) && t in s.tcbs && s.tcbs[t].container == Terminating
    ensures |Of(Unlink(s, t).lists, Terminating).items| == |Of(s.lists, Terminating).items| - 1
    ensures forall k :: k != Terminating ==> Of(Unlink(s, t).lists, k) == Of(s.lists, k)
  {
    hide EventsAgree;
    WithoutMembers(Of(s.lists, Terminating).items, t);
  }

  lemma DeadDetached(s: State, t: Task)
    requires Settled(s) && t in s.tcbs && s.tcbs[t].container == Terminating && s.deleted > 0
    ensures Detached(Unlink(s, t).(deleted := s.deleted - 1), t)
  {
    hide Linked, InWakeOrder, BitsAgree, EventsAgree, Unlink;
    UnlinkCore(s, t);
    UnlinkOrder(s, t);
    UnlinkFields(s, t);
    DeadCount(s, t);
    SameBits(s.lists, Unlink(s, t).lists, Terminating, s.bitmap, s.top, s.levels);
  }

  lemma SuspendFields(s: State, t: Task, l: ListId, v: Notification)
    requires Settled(s) && Live(s, t)
    ensures var r := Append(ClearEvent(UnlinkReset(s, t), t), t, l);
      var b := s.tcbs[t].(container := l, event := Free);
      && r.tcbs == s.tcbs[t := b]
      && r == s.(tcbs := r.tcbs, lists := r.lists, bitmap := r.bitmap, pending := Without(s.pending, t))
      && With(r, t, b.(notify := v)) == r.(tcbs := s.tcbs[t := b.(notify := v)])
  {
    hide Settled, UnlinkReset, ClearEvent, Append, Without, Detached;
    TakeOut(s, t);
    AppendFields(ClearEvent(UnlinkReset(s, t), t), t, l);
  }

  lemma SuspendSettled(s: State, t: Task)
    requires Settled(s) && Live(s, t) && t != s.idle
    ensures var r := ToSuspended(s, t);
      && Settled(r)
      && r == s.(tcbs := r.tcbs, lists := r.lists, bitmap := r.bitmap, pending := Without(s.pending, t))
      && Changed(s.tcbs, r.tcbs, t) && r.tcbs[t].container == Suspended && r.tcbs[t].priority == s.tcbs[t].priority
  {
    hide Linked, EventsAgree, InWakeOrder, BitsAgree, NoLoose, UnlinkReset, ClearEvent, Append, Without, Detached;
    TakeOut(s, t);
    var s2 := Append(ClearEvent(UnlinkReset(s, t), t), t, Suspended);
    JoinSuspended(ClearEvent(UnlinkReset(s, t), t), t);
    var v := if s.tcbs[t].notify == Waiting then NotWaiting else s.tcbs[t].notify;
    SuspendFields(s, t, Suspended, v);
    SettledNotify(s2, t, v);
  }

  lemma SuspendKeeps(s: State, t: Task)
    requires Invariant(s) && Enabled(s, SuspendOne(t))
    ensures Invariant(SuspendTask(s, t))
  {
    hide Linked, EventsAgree, InWakeOrder, BitsAgree, TimesAgree, ToSuspended, ResetNextUnblock;
    SuspendSettled(s, t);
    ResetKeepsTimes(s, ToSuspended(s, t));
    ResetFields(ToSuspended(s, t));
  }

  lemma SettledNotify(s: State, t: Task, v: Notification)
    requires Settled(s) && t in s.tcbs
    ensures Settled(With(s, t, s.tcbs[t].(notify := v)))
  {
    hide BitsAgree, InWakeOrder, Linked, EventsAgree;
    var b := s.tcbs[t].(notify := v);
    SameWakes(s, t, b);
    SameEvents(s.tcbs, s.pending, t, b);
    SameLinks(s.tcbs, s.lists, s.levels, t, b);
    assert s.tcbs.Keys == s.tcbs[t := b].Keys;
  }

  lemma PrioritySettled(s: State, t: Task, p: nat)
    requires Settled(s) && Live(s, t) && p < s.levels && s.tcbs[t].priority != p
    ensures var r := PrioritySet(s, t, p);
      && Settled(r)
      && r == s.(
           tcbs := r.tcbs, lists := r.lists, top := r.top, bitmap := r.bitmap, switchRequested := r.switchRequested)
      && Changed(s.tcbs, r.tcbs, t)
      && r.tcbs[t] == s.tcbs[t].(priority := p, container := r.tcbs[t].container)
      && (r.tcbs[t].container.Ready? <==> s.tcbs[t].container.Ready?)
      && (r.tcbs[t].container.Timed? ==> r.tcbs[t].container == s.tcbs[t].container)
  {
    hide Linked, EventsAgree, InWakeOrder, BitsAgree, NoLoose, UnlinkReset, Readied;
    var b := s.tcbs[t];
    if b.container == Ready(b.priority) {
      RelevelSettled(s, t, p);
    } else {
      if b.container.Ready? { LevelIsPriority(s, t); }
      UnreadySettled(s, t, p);
    }
  }

  lemma RelevelSettled(s: State, t: Task, p: nat)
    requires Settled(s) && t in s.tcbs && p < s.levels && s.tcbs[t].container.Ready?
    ensures t in UnlinkReset(s, t).tcbs
    ensures var u := UnlinkReset(s, t);
      var r := Readied(With(u, t, u.tcbs[t].(priority := p)), t);
      && Settled(r) && r.tcbs == s.tcbs[t := s.tcbs[t].(priority := p, container := Ready(p))]
      && r == s.(tcbs := r.tcbs, lists := r.lists, top := r.top, bitmap := r.bitmap)
  {
    hide Linked, EventsAgree, InWakeOrder, BitsAgree, NoLoose, UnlinkReset, Readied, Detached;
    UnlinkFields(s, t);
    var u := UnlinkReset(s, t);
    var v := With(u, t, u.tcbs[t].(priority := p));
    Detach(s, t);
    DetachedWith(u, t, v.tcbs[t]);
    ReadyNotOnObject(s, t);
    JoinReady(v, t);
    ReadiedFields(v, t);
  }

  lemma UnreadySettled(s: State, t: Task, p: nat)
    requires Settled(s) && Live(s, t) && p < s.levels && !s.tcbs[t].container.Ready?
    ensures Settled(With(s, t, s.tcbs[t].(priority := p)))
  {
    hide Linked, EventsAgree, InWakeOrder, BitsAgree;
    var c := s.tcbs[t].(priority := p);
    SameWakes(s, t, c);
    SameEvents(s.tcbs, s.pending, t, c);
    SameLinks(s.tcbs, s.lists, s.levels, t, c);
    assert s.tcbs.Keys == s.tcbs[t := c].Keys;
  }

  lemma PriorityKeeps(s: State, t: Task, p: nat)
    requires Invariant(s) && Enabled(s, SetPriority(t, p))
    ensures Invariant(PrioritySet(s, t, p))
  {
    hide Linked, EventsAgree, InWakeOrder, BitsAgree, NoLoose, TimesAgree, TopRuns, UnlinkReset, Readied;
    if s.tcbs[t].priority != p {
      PrioritySettled(s, t, p);
      PriorityTimes(s, t, p);
      PriorityYields(s, t, p);
      if TopRuns(s.tcbs, s.current) && !PrioritySet(s, t, p).switchRequested {
        PriorityTop(s, t, p);
      }
    }
  }

  lemma PriorityTimes(s: State, t: Task, p: nat)
    requires Invariant(s) && Enabled(s, SetPriority(t, p)) && s.tcbs[t].priority != p
    ensures Times(PrioritySet(s, t, p), s.now + 1)
  {
    hide Linked, EventsAgree, InWakeOrder, BitsAgree, NoLoose, TimesAgree, PrioritySet;
    PrioritySettled(s, t, p);
    SameTimes(s, PrioritySet(s, t, p));
  }

  /** Without a switch request, neither the running task was lowered nor another raised to its level. */
  lemma PriorityTop(s: State, t: Task, p: nat)
    requires Settled(s) && Live(s, t) && p < s.levels && s.tcbs[t].priority != p && TopRuns(s.tcbs, s.current)
    requires !PrioritySet(s, t, p).switchRequested
    ensures TopRuns(PrioritySet(s, t, p).tcbs, s.current)
  {
    hide Linked, EventsAgree, InWakeOrder, BitsAgree, NoLoose, PrioritySet;
    PrioritySettled(s, t, p);
    PriorityYields(s, t, p);
  }

  lemma PriorityYields(s: State, t: Task, p: nat)
    requires t in s.tcbs && s.tcbs[t].priority != p
    ensures PrioritySet(s, t, p).switchRequested <==>
      || s.switchRequested || (t == s.current && p < s.tcbs[t].priority)
      || (t != s.current && p > s.tcbs[t].priority && p >= Priority(s, s.current))
  {
  }

  lemma ReadyNotOnObject(s: State, t: Task)
    requires Core(s) && t in s.tcbs && s.tcbs[t].container.Ready?
    ensures s.tcbs[t].event != OnObject
  {
  }
}
