/**
 The scheduler state of tasks.c and the list moves every operation is made of.  A task control block
 names the list its state item is in (pxContainer), and the lists themselves are kept separately, so
 that their agreement is something to prove.
 */
module Kernel {
  import opened SeqLists
  import opened TickTime
  import opened RoundRobin

  type Task = nat

  datatype ListId = Nowhere | Ready(level: nat) | Timed(second: bool) | Suspended | Terminating

  /** Where the event list item is: in no list, in some object's list, or in xPendingReadyList. */
  datatype EventPlace = Free | OnObject | OnPending

  datatype Notification = NotWaiting | Waiting | Received

  /** `wake` is the item value, a wrapped tick count; `due` is the same moment in unbounded time. */
  datatype Tcb = Tcb(
    priority: nat, container: ListId, wake: nat, due: nat, event: EventPlace, notify: Notification)

  /**
   `now` counts every processed tick without wrapping and `interrupts` every tick that occurred.
   `second` says which of the two delayed lists pxDelayedTaskList points to.  `top` is the generic
   port's uxTopReadyPriority and `bitmap` the optimised port's.
   */
  datatype State = State(
    modulus: Modulus, levels: nat,
    tcbs: map<Task, Tcb>, lists: Lists, pending: seq<Task>,
    current: Task, idle: Task,
    tick: nat, now: nat, interrupts: nat, pendedTicks: nat, second: bool, nextUnblock: nat,
    suspended: nat, yieldPending: bool, switchRequested: bool,
    top: nat, bitmap: set<nat>,
    total: nat, deleted: nat)

  type Lists = map<ListId, Round<Task>>

  function Of(lists: Lists, l: ListId): Round<Task> {
    if l in lists then lists[l] else Walk([], 0)
  }

  lemma OfUpdate(lists: Lists, l: ListId, w: Round<Task>)
    ensures forall k {:trigger Of(lists[l := w], k)} ::
              Of(lists[l := w], k) == if k == l then w else Of(lists, k)
  {
  }

  function With(s: State, t: Task, b: Tcb): State {
    s.(tcbs := s.tcbs[t := b])
  }

  // ---- The list moves ----

  /** uxListRemove on the state item. */
  function Unlink(s: State, t: Task): State
    requires t in s.tcbs
  {
    var l := s.tcbs[t].container;
    With(s.(lists := s.lists[l := Drop(Of(s.lists, l), t)]), t, s.tcbs[t].(container := Nowhere))
  }

  /** vListInsertEnd of the state item. */
  function Append(s: State, t: Task, l: ListId): State
    requires t in s.tcbs
  {
    With(s.(lists := s.lists[l := Add(Of(s.lists, l), t)]), t, s.tcbs[t].(container := l))
  }

  function Wakes(tcbs: map<Task, Tcb>, items: seq<Task>): (v: seq<nat>)
    ensures |v| == |items|
  {
    seq(|items|, i requires 0 <= i < |items| => if items[i] in tcbs then tcbs[items[i]].wake else 0)
  }

  /** vListInsert by item value, into one list. */
  function InsertWalk(s: State, w: Round<Task>, t: Task): Round<Task>
    requires t in s.tcbs
  {
    Put(w, InsertPos(Wakes(s.tcbs, w.items), s.tcbs[t].wake), t)
  }

  /** vListInsert of the state item, in wake order. */
  function InsertByWake(s: State, t: Task, l: ListId): State
    requires t in s.tcbs
  {
    With(s.(lists := s.lists[l := InsertWalk(s, Of(s.lists, l), t)]), t, s.tcbs[t].(container := l))
  }

  /** prvAddTaskToReadyList */
  function Readied(s: State, t: Task): State
    requires t in s.tcbs
  {
    var p := s.tcbs[t].priority;
    Append(s.(top := if p > s.top then p else s.top, bitmap := s.bitmap + {p}), t, Ready(p))
  }

  /** uxListRemove followed by taskRESET_READY_PRIORITY when the list became empty. */
  function UnlinkReset(s: State, t: Task): State
    requires t in s.tcbs
  {
    var s1, p := Unlink(s, t), s.tcbs[t].priority;
    if Of(s1.lists, s.tcbs[t].container).items == [] && Of(s1.lists, Ready(p)).items == []
    then s1.(bitmap := s1.bitmap - {p}) else s1
  }

  /** Takes the event item out of whichever list holds it. */
  function ClearEvent(s: State, t: Task): State
    requires t in s.tcbs
  {
    With(s.(pending := Without(s.pending, t)), t, s.tcbs[t].(event := Free))
  }

  /** Out of the blocked or suspended list, off any event list, onto the ready list. */
  function Wake(s: State, t: Task): State
    requires t in s.tcbs
  {
    Readied(ClearEvent(Unlink(s, t), t), t)
  }

  // ---- What the moves keep ----

  /** Lists and containers agree: every linked task is in the one list it names, and only there. */
  ghost predicate Linked(tcbs: map<Task, Tcb>, lists: Lists, levels: nat) {
    && (forall l :: NoDup(Of(lists, l).items))
    && (forall l, t {:trigger t in Of(lists, l).items} ::
          t in Of(lists, l).items ==> l != Nowhere && t in tcbs && tcbs[t].container == l)
    && (forall t :: t in tcbs && tcbs[t].container != Nowhere ==> t in Of(lists, tcbs[t].container).items)
    && (forall t :: t in tcbs ==> tcbs[t].priority < levels)
    && (forall t :: t in tcbs && tcbs[t].container.Ready? ==> tcbs[t].container.level == tcbs[t].priority)
  }

  /**
   No deleted task has its event item in a list.  A ready task may be in the pending list: an
   interrupt can notify a task that has timed out but not yet run, while the scheduler is suspended.
   */
  ghost predicate EventsAgree(tcbs: map<Task, Tcb>, pending: seq<Task>) {
    && NoDup(pending)
    && (forall t :: t in pending <==> t in tcbs && tcbs[t].event == OnPending)
    && (forall t :: t in tcbs && tcbs[t].event != Free ==>
          tcbs[t].container != Terminating && (tcbs[t].container.Ready? ==> tcbs[t].event == OnPending))
  }

  ghost predicate Core(s: State) {
    && Linked(s.tcbs, s.lists, s.levels) && EventsAgree(s.tcbs, s.pending)
    && s.current in s.tcbs && s.idle in s.tcbs
  }

  lemma UnlinkCore(s: State, t: Task)
    requires Core(s) && t in s.tcbs
    ensures Core(Unlink(s, t))
    ensures forall l :: Of(Unlink(s, t).lists, l).items == Without(Of(s.lists, l).items, t)
  {
    var l, s1 := s.tcbs[t].container, Unlink(s, t);
    WithoutMembers(Of(s.lists, l).items, t);
    OfUpdate(s.lists, l, Drop(Of(s.lists, l), t));
    forall k ensures Of(s1.lists, k).items == Without(Of(s.lists, k).items, t) {
      if k != l { assert t !in Of(s.lists, k).items; }
    }
  }

  /** Any insertion of an unlinked task keeps the agreement, wherever in the list it goes. */
  lemma LinkCore(s: State, t: Task, l: ListId, p: nat, w: Round<Task>)
    requires Core(s) && t in s.tcbs && s.tcbs[t].container == Nowhere && l != Nowhere
    requires l.Ready? ==> l.level == s.tcbs[t].priority
    requires l.Ready? ==> s.tcbs[t].event != OnObject
    requires l == Terminating ==> s.tcbs[t].event == Free
    requires p <= |Of(s.lists, l).items| && w.items == InsertAt(Of(s.lists, l).items, p, t)
    ensures var s1 := With(s.(lists := s.lists[l := w]), t, s.tcbs[t].(container := l));
      Core(s1) && (forall x :: x in Of(s1.lists, l).items <==> x in Of(s.lists, l).items || x == t)
  {
    InsertAtMembers(Of(s.lists, l).items, p, t);
    OfUpdate(s.lists, l, w);
  }

  lemma AppendCore(s: State, t: Task, l: ListId)
    requires Core(s) && t in s.tcbs && s.tcbs[t].container == Nowhere && l != Nowhere
    requires l.Ready? ==> l.level == s.tcbs[t].priority
    requires l.Ready? ==> s.tcbs[t].event != OnObject
    requires l == Terminating ==> s.tcbs[t].event == Free
    ensures Core(Append(s, t, l))
    ensures forall x :: x in Of(Append(s, t, l).lists, l).items <==> x in Of(s.lists, l).items || x == t
  {
    var w := Of(s.lists, l);
    LinkCore(s, t, l, EndPosition(w), Add(w, t));
  }

  lemma InsertCore(s: State, t: Task, l: ListId)
    requires Core(s) && t in s.tcbs && s.tcbs[t].container == Nowhere && l.Timed?
    ensures Core(InsertByWake(s, t, l))
  {
    var w := Of(s.lists, l);
    LinkCore(s, t, l, InsertPos(Wakes(s.tcbs, w.items), s.tcbs[t].wake), InsertWalk(s, w, t));
  }

  lemma ClearEventCore(s: State, t: Task)
    requires Core(s) && t in s.tcbs
    ensures Core(ClearEvent(s, t))
  {
    WithoutMembers(s.pending, t);
  }

  lemma WakeCore(s: State, t: Task)
    requires Core(s) && t in s.tcbs
    ensures Core(Wake(s, t))
  {
    UnlinkCore(s, t);
    var s1 := Unlink(s, t);
    ClearEventCore(s1, t);
    var s2, p := ClearEvent(s1, t), s.tcbs[t].priority;
    AppendCore(s2.(top := if p > s2.top then p else s2.top, bitmap := s2.bitmap + {p}), t, Ready(p));
  }
}
