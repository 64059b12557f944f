/**
 How the scheduler's calls act on the ready lists: every run of calls is, for each priority, a legal run of
 insertions, removals and selections, so the bounds on waiting proved of those hold of the tasks.
 */
module KernelRotation {
  import opened SeqLists
  import opened TickTime
  import opened RoundRobin
  import opened Kernel
  import opened Scheduler
  import opened KernelInvariant
  import opened KernelCalls
  import opened KernelRuns

  // ---- Runs of list operations ----

  function After(w: Round<Task>, ops: seq<Op<Task>>): Round<Task>
    requires LegalRun(w, ops)
    decreases |ops|
  {
    if ops == [] then w else After(Step(w, ops[0]), ops[1..])
  }

  lemma {:induction false} Concat(w: Round<Task>, a: seq<Op<Task>>, b: seq<Op<Task>>)
    requires LegalRun(w, a) && LegalRun(After(w, a), b)
    ensures LegalRun(w, a + b) && After(w, a + b) == After(After(w, a), b)
    ensures Selections(a + b) == Selections(a) + Selections(b)
    ensures forall x :: Served(w, a + b, x) ==> Served(w, a, x) || Served(After(w, a), b, x)
    decreases |a|
  {
    if a == [] {
      assert a + b == b;
    } else {
      assert (a + b)[1..] == a[1..] + b;
      Concat(Step(w, a[0]), a[1..], b);
    }
  }

  lemma {:induction false} NoSelection(w: Round<Task>, ops: seq<Op<Task>>)
    requires LegalRun(w, ops) && Selections(ops) == 0
    ensures forall x :: !Served(w, ops, x)
    decreases |ops|
  {
    if ops != [] {
      NoSelection(Step(w, ops[0]), ops[1..]);
    }
  }

  /** From s to r, the ready list of priority p has been through these operations. */
  ghost predicate Acts(s: State, r: State, p: nat, ops: seq<Op<Task>>) {
    LegalRun(Of(s.lists, Ready(p)), ops) && After(Of(s.lists, Ready(p)), ops) == Of(r.lists, Ready(p))
  }

  /** They select nothing and remove at most these tasks. */
  ghost predicate Removing(ops: seq<Op<Task>>, ts: set<Task>) {
    Selections(ops) == 0 && forall x :: Remove(x) in ops ==> x in ts
  }

  lemma NoOps(s: State, r: State, p: nat)
    requires Of(r.lists, Ready(p)) == Of(s.lists, Ready(p))
    ensures Acts(s, r, p, []) && Removing([], {})
  {
  }

  lemma Then(s: State, r: State, q: State, p: nat, a: seq<Op<Task>>, b: seq<Op<Task>>, ts: set<Task>)
    requires Acts(s, r, p, a) && Acts(r, q, p, b) && Removing(a, ts) && Removing(b, ts)
    ensures Acts(s, q, p, a + b) && Removing(a + b, ts)
  {
    Concat(Of(s.lists, Ready(p)), a, b);
  }

  // ---- The list moves ----

  function UnlinkOps(s: State, t: Task, p: nat): seq<Op<Task>>
    requires t in s.tcbs
  {
    if s.tcbs[t].container == Ready(p) then [Remove(t)] else []
  }

  function AppendOps(t: Task, l: ListId, p: nat): seq<Op<Task>> {
    if l == Ready(p) then [Insert(t)] else []
  }

  lemma OneOp(w: Round<Task>, op: Op<Task>)
    requires Legal(w, op)
    ensures LegalRun(w, [op]) && After(w, [op]) == Step(w, op)
    ensures !op.Select? ==> Selections([op]) == 0
  {
    assert LegalRun(Step(w, op), []) && After(Step(w, op), []) == Step(w, op);
    assert [op][1..] == [];
    assert Selections<Task>([]) == 0;
  }

  lemma UnlinkActs(s: State, t: Task, p: nat)
    requires Core(s) && t in s.tcbs
    ensures Acts(s, Unlink(s, t), p, UnlinkOps(s, t, p))
    ensures Removing(UnlinkOps(s, t, p), if s.tcbs[t].container.Ready? then {t} else {})
  {
    hide EventsAgree;
    var l := s.tcbs[t].container;
    OfUpdate(s.lists, l, Drop(Of(s.lists, l), t));
    if l == Ready(p) {
      OneOp(Of(s.lists, l), Remove(t));
    } else {
      NoOps(s, Unlink(s, t), p);
    }
  }

  lemma AppendActs(s: State, t: Task, l: ListId, p: nat)
    requires t in s.tcbs && t !in Of(s.lists, l).items
    ensures Acts(s, Append(s, t, l), p, AppendOps(t, l, p)) && Removing(AppendOps(t, l, p), {})
  {
    OfUpdate(s.lists, l, Add(Of(s.lists, l), t));
    if l == Ready(p) {
      OneOp(Of(s.lists, l), Insert(t));
    } else {
      NoOps(s, Append(s, t, l), p);
    }
  }

  lemma ReadiedActs(s: State, t: Task, p: nat)
    requires t in s.tcbs && t !in Of(s.lists, Ready(s.tcbs[t].priority)).items
    ensures Acts(s, Readied(s, t), p, AppendOps(t, Ready(s.tcbs[t].priority), p))
    ensures Removing(AppendOps(t, Ready(s.tcbs[t].priority), p), {})
  {
    var q := s.tcbs[t].priority;
    AppendActs(s.(top := if q > s.top then q else s.top, bitmap := s.bitmap + {q}), t, Ready(q), p);
  }

  /** Waking a task appends it to the list of its priority, after taking it out if it was there already. */
  lemma WakeActs(s: State, t: Task, p: nat) returns (ops: seq<Op<Task>>)
    requires Core(s) && t in s.tcbs
    ensures Acts(s, Wake(s, t), p, ops)
    ensures Removing(ops, if s.tcbs[t].container.Ready? then {t} else {})
  {
    var s1, q := Unlink(s, t), s.tcbs[t].priority;
    UnlinkActs(s, t, p);
    UnlinkCore(s, t);
    hide Drop;
    var s2 := ClearEvent(s1, t);
    assert t !in Of(s2.lists, Ready(q)).items;
    ReadiedActs(s2, t, p);
    hide Readied;
    ops := UnlinkOps(s, t, p) + AppendOps(t, Ready(q), p);
    var own := if s.tcbs[t].container.Ready? then {t} else {};
    Then(s, s2, Wake(s, t), p, UnlinkOps(s, t, p), AppendOps(t, Ready(q), p), own);
  }

  lemma UnlinkResetActs(s: State, t: Task, p: nat)
    requires Core(s) && t in s.tcbs
    ensures Acts(s, UnlinkReset(s, t), p, UnlinkOps(s, t, p))
    ensures Removing(UnlinkOps(s, t, p), if s.tcbs[t].container.Ready? then {t} else {})
    ensures forall l :: t !in Of(UnlinkReset(s, t).lists, l).items
  {
    UnlinkActs(s, t, p);
    UnlinkCore(s, t);
    hide Drop, Linked, EventsAgree, Removing;
  }

  // ---- Ticks and the resumption ----

  lemma {:induction false} DrainActs(s: State, p: nat) returns (ops: seq<Op<Task>>)
    requires Core(s)
    ensures Acts(s, Drain(s).0, p, ops) && Removing(ops, {})
    decreases |Of(s.lists, Timed(s.second)).items|
  {
    hide EventsAgree, Removing;
    var l := Of(s.lists, Timed(s.second)).items;
    assert l != [] ==> l[0] in l;
    if l == [] || s.tick < s.tcbs[l[0]].wake {
      ops := [];
      NoOps(s, Drain(s).0, p);
    } else {
      WakeLists(s, l[0]);
      var a := WakeActs(s, l[0], p);
      var s1 := Wake(s, l[0]);
      var b := DrainActs(s1, p);
      hide Wake, Linked, Acts;
      ops := a + b;
      Then(s, s1, Drain(s).0, p, a, b, {});
    }
  }

  lemma CountTickActs(s: State, p: nat) returns (ops: seq<Op<Task>>)
    requires Core(s)
    ensures Acts(s, CountTick(s).0, p, ops) && Removing(ops, {})
  {
    hide Linked, EventsAgree, Removing, Acts, Drain;
    var s1 := Count(s);
    assert s1.lists == s.lists;
    if s1.tick >= s1.nextUnblock {
      ops := DrainActs(s1, p);
    } else {
      ops := [];
      NoOps(s1, s1, p);
    }
    SameLists(s, s1, CountTick(s).0, CountTick(s).0, p, ops);
  }

  /** Only the lists matter. */
  lemma SameLists(s: State, s1: State, r1: State, r: State, p: nat, ops: seq<Op<Task>>)
    requires Acts(s1, r1, p, ops) && s.lists == s1.lists && r.lists == r1.lists
    ensures Acts(s, r, p, ops)
  {
  }

  lemma {:induction false} ReplayActs(s: State, n: nat, p: nat) returns (ops: seq<Op<Task>>)
    requires Core(s)
    ensures Acts(s, Replay(s, n), p, ops) && Removing(ops, {})
    decreases n
  {
    hide Linked, EventsAgree, Removing, Acts, CountTick;
    if n == 0 {
      ops := [];
      NoOps(s, s, p);
    } else {
      CountTickCore(s);
      var a := CountTickActs(s, p);
      var s1 := Flagged(CountTick(s));
      SameLists(s, s, CountTick(s).0, s1, p, a);
      var b := ReplayActs(s1, n - 1, p);
      ops := a + b;
      Then(s, s1, Replay(s, n), p, a, b, {});
    }
  }

  lemma {:induction false} MovePendingActs(s: State, p: nat) returns (ops: seq<Op<Task>>)
    requires Core(s)
    ensures Acts(s, MovePending(s), p, ops) && Removing(ops, Pending(s))
    decreases |s.pending|
  {
    hide Linked, Acts, Wake, Without, Removing;
    if s.pending == [] {
      ops := [];
      NoOps(s, s, p);
      RemovingMore([], {}, Pending(s));
    } else {
      var t := s.pending[0];
      assert t in s.pending;
      WakeCore(s, t);
      WithoutMembers(s.pending, t);
      WakePending(s, t);
      var a := WakeActs(s, t, p);
      RemovingMore(a, if s.tcbs[t].container.Ready? then {t} else {}, Pending(s));
      var s1 := Wake(s, t);
      var s2 := if Priority(s, t) >= Priority(s, s.current) then s1.(yieldPending := true) else s1;
      SameLists(s, s, s1, s2, p, a);
      var b := MovePendingActs(s2, p);
      RemovingMore(b, Pending(s2), Pending(s));
      ops := a + b;
      Then(s, s2, MovePending(s), p, a, b, Pending(s));
    }
  }

  function Pending(s: State): set<Task> {
    set t | t in s.pending
  }

  lemma WakePending(s: State, t: Task)
    requires t in s.tcbs
    ensures Wake(s, t).pending == Without(s.pending, t)
  {
    hide Without;
  }

  lemma RemovingMore(ops: seq<Op<Task>>, few: set<Task>, many: set<Task>)
    requires Removing(ops, few) && few <= many
    ensures Removing(ops, many)
  {
  }

  lemma ResumedActs(s: State, p: nat) returns (ops: seq<Op<Task>>)
    requires Core(s)
    ensures Acts(s, Resumed(s), p, ops) && Removing(ops, Pending(s))
  {
    hide Linked, EventsAgree, Removing, Acts, MovePending, Replay, Pending;
    MovePendingCore(s);
    var a := MovePendingActs(s, p);
    var s1 := MovePending(s);
    var s2 := if s.pending == [] then s1 else ResetNextUnblock(s1);
    SameLists(s, s, s1, s2, p, a);
    var b := ReplayActs(s2, s2.pendedTicks, p);
    RemovingMore(b, {}, Pending(s));
    SameLists(s2, s2, Replay(s2, s2.pendedTicks), Resumed(s), p, b);
    ops := a + b;
    Then(s, s2, Resumed(s), p, a, b, Pending(s));
  }

  // ---- Every call ----

  /** The tasks whose state item a call takes out of its ready list. */
  ghost function Moved(s: State, c: Call): set<Task> {
    match c
    case BlockFor(_, _, _) => {s.current}
    case DeleteTask(t) => {t}
    case SuspendOne(t) => {t}
    case SetPriority(t, q) => if Priority(s, t) != q then {t} else {}
    case Notified(t) => if t in s.tcbs && s.tcbs[t].notify == Waiting then {t} else {}
    case NotifiedFromISR(t) => if t in s.tcbs && s.tcbs[t].notify == Waiting then {t} else {}
    case ResumeScheduler => Pending(s)
    case _ => {}
  }

  /** Notifications, events, resumptions and aborts: the task is woken, if anything happens to the lists. */
  lemma WakingActs(s: State, c: Call, p: nat) returns (ops: seq<Op<Task>>)
    requires Invariant(s) && Enabled(s, c)
    requires c.Notified? || c.NotifiedFromISR? || c.EventOccurs? || c.UnorderedEventOccurs?
          || c.ResumeOne? || c.ResumeOneFromISR? || c.Abort?
    ensures Acts(s, Perform(s, c), p, ops) && Removing(ops, Moved(s, c))
  {
    WakingLists(s, c);
    assert MayWake(s, c, c.task, Perform(s, c));
    hide Invariant, Wake, Removing, Acts, Perform, Enabled, Moved;
    var r, t := Perform(s, c), c.task;
    if r.lists == s.lists {
      ops := [];
      NoOps(s, s, p);
      SameLists(s, s, s, r, p, ops);
      RemovingMore(ops, {}, Moved(s, c));
    } else {
      ops := WakeActs(s, t, p);
      SameLists(s, s, Wake(s, t), r, p, ops);
      RemovingMore(ops, if s.tcbs[t].container.Ready? then {t} else {}, Moved(s, c));
    }
  }

  /** The call leaves the lists alone, or wakes its task; a ready one only if the call is counted as moving it. */
  ghost predicate MayWake(s: State, c: Call, t: Task, r: State)
    requires t in s.tcbs
  {
    r.lists == s.lists || (r.lists == Wake(s, t).lists && (s.tcbs[t].container.Ready? ==> t in Moved(s, c)))
  }

  lemma WakingLists(s: State, c: Call)
    requires Invariant(s) && Enabled(s, c)
    requires c.Notified? || c.NotifiedFromISR? || c.EventOccurs? || c.UnorderedEventOccurs?
          || c.ResumeOne? || c.ResumeOneFromISR? || c.Abort?
    ensures Core(s) && c.task in s.tcbs && MayWake(s, c, c.task, Perform(s, c))
  {
    assert Core(s) && c.task in s.tcbs;
    hide Invariant, Perform, MayWake;
    if c.Notified? || c.NotifiedFromISR? {
      NotifyWakes(s, c);
    } else if c.EventOccurs? || c.UnorderedEventOccurs? {
      EventWakes(s, c);
    } else {
      ResumeWakes(s, c);
    }
  }

  lemma NotifyWakes(s: State, c: Call)
    requires Invariant(s) && Enabled(s, c) && (c.Notified? || c.NotifiedFromISR?)
    ensures c.task in s.tcbs && MayWake(s, c, c.task, Perform(s, c))
  {
    hide Invariant, Wake, Notify, NotifyFromISR;
    NotifyLists(s, c.task);
  }

  lemma EventWakes(s: State, c: Call)
    requires Invariant(s) && Enabled(s, c) && (c.EventOccurs? || c.UnorderedEventOccurs?)
    ensures c.task in s.tcbs && MayWake(s, c, c.task, Perform(s, c))
  {
    if s.tcbs[c.task].container.Ready? {
      ReadyNotOnObject(s, c.task);
    }
    hide Invariant, Wake, RemoveFromEvent, RemoveFromUnordered;
    OtherWakesLists(s, c.task);
  }

  lemma ResumeWakes(s: State, c: Call)
    requires Invariant(s) && Enabled(s, c) && (c.ResumeOne? || c.ResumeOneFromISR? || c.Abort?)
    ensures c.task in s.tcbs && MayWake(s, c, c.task, Perform(s, c))
  {
    hide Invariant, Wake, ResumeTask, ResumeFromISR, AbortDelay;
    OtherWakesLists(s, c.task);
  }

  lemma NotifyLists(s: State, t: Task)
    requires t in s.tcbs
    ensures Notify(s, t).lists == if s.tcbs[t].notify == Waiting then Wake(s, t).lists else s.lists
    ensures NotifyFromISR(s, t).lists ==
      if s.tcbs[t].notify == Waiting && s.suspended == 0 then Wake(s, t).lists else s.lists
  {
    hide Wake;
    NotifiedWakes(s, t);
    HoldLists(With(s, t, s.tcbs[t].(notify := Received)), t);
  }

  lemma OtherWakesLists(s: State, t: Task)
    requires t in s.tcbs
    ensures RemoveFromEvent(s, t).lists == if s.suspended == 0 then Wake(s, t).lists else s.lists
    ensures RemoveFromUnordered(s, t).lists == Wake(s, t).lists
    ensures ResumeTask(s, t).lists == if t != s.current && IsSuspended(s, t) then Wake(s, t).lists else s.lists
    ensures ResumeFromISR(s, t).lists ==
      if IsSuspended(s, t) && s.suspended == 0 then Wake(s, t).lists else s.lists
    ensures AbortDelay(s, t).lists == if t != s.current && Blocked(s, t) then Wake(s, t).lists else s.lists
  {
    hide Wake;
    HoldLists(s, t);
  }

  /** The notification state does not matter to the lists. */
  lemma NotifiedWakes(s: State, t: Task)
    requires t in s.tcbs
    ensures Wake(With(s, t, s.tcbs[t].(notify := Received)), t).lists == Wake(s, t).lists
  {
    hide Drop, Add;
  }

  lemma HoldLists(s: State, t: Task)
    requires t in s.tcbs
    ensures Hold(s, t).lists == s.lists
  {
  }

  /** Deletion and suspension: the task leaves its list for one that is not a ready list, or for none. */
  lemma LeavingActs(s: State, c: Call, p: nat) returns (ops: seq<Op<Task>>)
    requires Invariant(s) && Enabled(s, c) && (c.DeleteTask? || c.SuspendOne?)
    ensures Acts(s, Perform(s, c), p, ops) && Removing(ops, Moved(s, c))
  {
    var t := c.task;
    ops := UnlinkOps(s, t, p);
    UnlinkResetActs(s, t, p);
    hide Invariant, UnlinkReset, Add;
    LeavingLists(s, t, p);
    RemovingMore(ops, if s.tcbs[t].container.Ready? then {t} else {}, Moved(s, c));
  }

  lemma LeavingLists(s: State, t: Task, p: nat)
    requires t in s.tcbs
    ensures Of(Delete(s, t).lists, Ready(p)) == Of(UnlinkReset(s, t).lists, Ready(p))
    ensures Of(SuspendTask(s, t).lists, Ready(p)) == Of(UnlinkReset(s, t).lists, Ready(p))
  {
    hide UnlinkReset, Add;
  }

  lemma CleanUpActs(s: State, p: nat)
    requires Invariant(s) && Enabled(s, CleanUpOne)
    ensures Acts(s, Perform(s, CleanUpOne), p, []) && Removing([], {})
  {
    CleanUpHead(s);
    var t := Of(s.lists, Terminating).items[0];
    UnlinkActs(s, t, p);
    hide Invariant;
    SameLists(s, s, Unlink(s, t), Perform(s, CleanUpOne), p, []);
  }

  lemma BlockActs(s: State, c: Call, p: nat) returns (ops: seq<Op<Task>>)
    requires Invariant(s) && Enabled(s, c) && c.BlockFor?
    ensures Acts(s, Perform(s, c), p, ops) && Removing(ops, Moved(s, c))
  {
    var t := s.current;
    ops := UnlinkOps(s, t, p);
    UnlinkResetActs(s, t, p);
    hide Invariant, UnlinkReset, Add, InsertWalk;
    BlockLists(s, c.ticks, c.indefinitely, c.kind, p);
    RemovingMore(ops, if s.tcbs[t].container.Ready? then {t} else {}, Moved(s, c));
  }

  lemma BlockLists(s: State, n: nat, indefinitely: bool, kind: BlockKind, p: nat)
    requires s.current in s.tcbs
    ensures Of(Block(s, n, indefinitely, kind).lists, Ready(p)) == Of(UnlinkReset(s, s.current).lists, Ready(p))
  {
    hide AddToDelayed;
    DelayedLists(s, n, indefinitely, p);
  }

  lemma DelayedLists(s: State, n: nat, indefinitely: bool, p: nat)
    requires s.current in s.tcbs
    ensures Of(AddToDelayed(s, n, indefinitely).lists, Ready(p)) == Of(UnlinkReset(s, s.current).lists, Ready(p))
  {
    hide UnlinkReset, Append, InsertByWake;
    var t, s1 := s.current, UnlinkReset(s, s.current);
    UnlinkResetKeepsTask(s, t);
    var wake := Wrap(s.tick + n, s.modulus);
    var s2 := With(s1, t, s1.tcbs[t].(wake := wake, due := s.now + n));
    OtherListsStay(s1, t, p);
    OtherListsStay(s2, t, p);
    OtherListsStay(s2.(nextUnblock := if wake < s.nextUnblock then wake else s.nextUnblock), t, p);
  }

  lemma OtherListsStay(s: State, t: Task, p: nat)
    requires t in s.tcbs
    ensures Of(Append(s, t, Suspended).lists, Ready(p)) == Of(s.lists, Ready(p))
    ensures forall b :: Of(InsertByWake(s, t, Timed(b)).lists, Ready(p)) == Of(s.lists, Ready(p))
  {
    hide Add, InsertWalk;
  }

  lemma CreateActs(s: State, c: Call, p: nat) returns (ops: seq<Op<Task>>)
    requires Invariant(s) && Enabled(s, c) && c.CreateTask?
    ensures Acts(s, Perform(s, c), p, ops) && Removing(ops, Moved(s, c))
  {
    var t := c.task;
    ops := AppendOps(t, Ready(c.priority), p);
    var s1 := With(s, t, Tcb(c.priority, Nowhere, 0, 0, Free, NotWaiting)).(total := s.total + 1);
    assert t !in Of(s.lists, Ready(c.priority)).items;
    hide Invariant, Readied;
    ReadiedActs(s1, t, p);
    SameLists(s, s1, Readied(s1, t), Perform(s, c), p, ops);
  }

  lemma PriorityActs(s: State, c: Call, p: nat) returns (ops: seq<Op<Task>>)
    requires Invariant(s) && Enabled(s, c) && c.SetPriority?
    ensures Acts(s, Perform(s, c), p, ops) && Removing(ops, Moved(s, c))
  {
    var t, q := c.task, c.priority;
    assert Core(s);
    hide Invariant, PrioritySet, Acts, Removing, Core;
    if Priority(s, t) == q {
      ops := [];
      NoOps(s, s, p);
      assert Perform(s, c) == s by { SamePriority(s, t); }
      RemovingMore(ops, {}, Moved(s, c));
    } else {
      ops := RelevelActs(s, t, q, p);
    }
  }

  lemma SamePriority(s: State, t: Task)
    requires t in s.tcbs
    ensures PrioritySet(s, t, s.tcbs[t].priority) == s
  {
  }

  lemma RelevelActs(s: State, t: Task, q: nat, p: nat) returns (ops: seq<Op<Task>>)
    requires Core(s) && t in s.tcbs && s.tcbs[t].priority != q
    ensures Acts(s, PrioritySet(s, t, q), p, ops) && Removing(ops, {t})
  {
    var r, b := PrioritySet(s, t, q), s.tcbs[t];
    if b.container != Ready(b.priority) {
      ops := [];
      NoOps(s, r, p);
    } else {
      UnlinkResetActs(s, t, p);
      hide Linked, EventsAgree, Readied, UnlinkReset, Removing, Acts;
      var u := UnlinkReset(s, t);
      UnlinkResetKeepsTask(s, t);
      var s1 := With(u, t, u.tcbs[t].(priority := q));
      SameLists(s, s, u, s1, p, UnlinkOps(s, t, p));
      ReadiedActs(s1, t, p);
      SameLists(s1, s1, Readied(s1, t), r, p, AppendOps(t, Ready(q), p));
      ops := UnlinkOps(s, t, p) + AppendOps(t, Ready(q), p);
      RemovingMore(AppendOps(t, Ready(q), p), {}, {t});
      Then(s, s1, r, p, UnlinkOps(s, t, p), AppendOps(t, Ready(q), p), {t});
    }
  }

  lemma UnlinkResetKeepsTask(s: State, t: Task)
    requires t in s.tcbs
    ensures t in UnlinkReset(s, t).tcbs && UnlinkReset(s, t).tcbs[t].priority == s.tcbs[t].priority
  {
  }

  lemma TickActs(s: State, p: nat) returns (ops: seq<Op<Task>>)
    requires Core(s)
    ensures Acts(s, TickInterrupt(s), p, ops) && Removing(ops, {})
  {
    hide Linked, EventsAgree, CountTick, Acts, Removing;
    if s.suspended > 0 {
      ops := [];
      NoOps(s, s, p);
      SameLists(s, s, s, TickInterrupt(s), p, ops);
    } else {
      var s0 := s.(interrupts := s.interrupts + 1);
      ops := CountTickActs(s0, p);
      SameLists(s, s0, CountTick(s0).0, TickInterrupt(s), p, ops);
    }
  }

  lemma ResumeAllActs(s: State, p: nat) returns (ops: seq<Op<Task>>)
    requires Core(s) && s.suspended > 0
    ensures Acts(s, ResumeAll(s), p, ops) && Removing(ops, Pending(s))
  {
    hide Linked, EventsAgree, Resumed, Acts, Removing;
    if s.suspended > 1 {
      ops := [];
      NoOps(s, s, p);
      SameLists(s, s, s, ResumeAll(s), p, ops);
      RemovingMore(ops, {}, Pending(s));
    } else {
      var s0 := s.(suspended := 0);
      ops := ResumedActs(s0, p);
      assert Pending(s0) == Pending(s);
      SameLists(s, s0, Resumed(s0), ResumeAll(s), p, ops);
    }
  }

  /** The remaining calls do not touch the lists. */
  lemma FlagActs(s: State, c: Call, p: nat)
    requires Invariant(s) && Enabled(s, c)
    requires c.SuspendScheduler? || c.CatchUp? || c.Yield? || c.ClearNotification?
    ensures Acts(s, Perform(s, c), p, []) && Removing([], {})
  {
    hide Invariant;
    NoOps(s, Perform(s, c), p);
  }

  /** A switch selects once from the ready list it runs a task of, and none at all while it is suspended. */
  function SelectionsAt(s: State, c: Call, p: nat): nat {
    if c == ContextSwitch && s.suspended == 0 && Scan(s.lists, s.top) == p then 1 else 0
  }

  lemma SwitchActs(s: State, p: nat) returns (ops: seq<Op<Task>>)
    requires Invariant(s)
    ensures Acts(s, Perform(s, ContextSwitch), p, ops) && (forall x :: Remove(x) !in ops)
    ensures Selections(ops) == SelectionsAt(s, ContextSwitch, p)
    ensures forall x :: Served(Of(s.lists, Ready(p)), ops, x) ==>
              s.suspended == 0 && Perform(s, ContextSwitch).current == x
  {
    SwitchFacts(s);
    hide Invariant, Acts, LegalRun, Selections, Served, SwitchContext, Perform;
    if s.suspended == 0 && Scan(s.lists, s.top) == p {
      ops := [Select];
      SelectActs(s, p);
    } else {
      ops := [];
      NoOps(s, SwitchContext(s), p);
      NoSelection(Of(s.lists, Ready(p)), []);
    }
  }

  lemma SwitchFacts(s: State)
    requires Invariant(s)
    ensures Of(s.lists, Ready(Scan(s.lists, s.top))).items != [] && Perform(s, ContextSwitch) == SwitchContext(s)
    ensures s.suspended == 0 ==>
      var r, q := SwitchContext(s), Scan(s.lists, s.top);
      r.current == Of(s.lists, Ready(q)).Rotation()[0] && forall l :: l != Ready(q) ==> Of(r.lists, l) == Of(s.lists, l)
    ensures s.suspended > 0 ==> SwitchContext(s).lists == s.lists
  {
    ScanIsHighest(s);
    hide Invariant, SwitchContext, Settled;
    SwitchLists(s);
  }

  lemma SwitchLists(s: State)
    requires Of(s.lists, Ready(Scan(s.lists, s.top))).items != []
    ensures s.suspended == 0 ==>
      var r, q := SwitchContext(s), Scan(s.lists, s.top);
      r.current == Of(s.lists, Ready(q)).Rotation()[0] && forall l :: l != Ready(q) ==> Of(r.lists, l) == Of(s.lists, l)
    ensures s.suspended > 0 ==> SwitchContext(s).lists == s.lists
  {
    RotationAdvance(Of(s.lists, Ready(Scan(s.lists, s.top))));
    hide Scan, Advance;
  }

  lemma SelectActs(s: State, p: nat)
    requires s.suspended == 0 && p == Scan(s.lists, s.top) && Of(s.lists, Ready(p)).items != []
    ensures Acts(s, SwitchContext(s), p, [Select]) && Selections<Task>([Select]) == 1
    ensures forall x :: Served(Of(s.lists, Ready(p)), [Select], x) ==> x == Of(s.lists, Ready(p)).Rotation()[0]
  {
    OneOp(Of(s.lists, Ready(p)), Select);
    SelectedList(s, p);
    var ops: seq<Op<Task>> := [Select];
    assert ops[1..] == [] && Selections(ops[1..]) == 0;
  }

  lemma SelectedList(s: State, p: nat)
    requires s.suspended == 0 && p == Scan(s.lists, s.top) && Of(s.lists, Ready(p)).items != []
    ensures Of(SwitchContext(s).lists, Ready(p)) == Advance(Of(s.lists, Ready(p)))
  {
  }

  /** The tasks that run next, when a call is a switch. */
  ghost predicate Switches(s: State, c: Call, x: Task)
    requires Invariant(s) && Enabled(s, c)
  {
    c == ContextSwitch && s.suspended == 0 && Perform(s, c).current == x
  }

  /**
   Every call acts on each ready list as a legal run of insertions, removals and selections.  It selects
   exactly when it is a switch that finds this list highest, and then runs what it selects; and it removes at
   most the tasks it moves.
   */
  lemma CallActs(s: State, c: Call, p: nat) returns (ops: seq<Op<Task>>)
    requires Invariant(s) && Enabled(s, c)
    ensures Acts(s, Perform(s, c), p, ops)
    ensures Selections(ops) == SelectionsAt(s, c, p)
    ensures forall x :: Served(Of(s.lists, Ready(p)), ops, x) ==> Switches(s, c, x)
    ensures forall x :: Remove(x) in ops ==> x in Moved(s, c)
  {
    hide Invariant, Enabled, Perform, Moved;
    if c == ContextSwitch {
      ops := SwitchActs(s, p);
    } else {
      ops := OtherActs(s, c, p);
      NoSelection(Of(s.lists, Ready(p)), ops);
    }
  }

  lemma ClockActs(s: State, c: Call, p: nat) returns (ops: seq<Op<Task>>)
    requires Invariant(s) && Enabled(s, c) && (c == TickOccurs || c == ResumeScheduler)
    ensures Acts(s, Perform(s, c), p, ops) && Removing(ops, Moved(s, c))
  {
    assert Core(s);
    hide Invariant, Core, TickInterrupt, ResumeAll, Acts, Removing, Pending;
    if c == TickOccurs {
      ops := TickActs(s, p);
      RemovingMore(ops, {}, Moved(s, c));
    } else {
      ops := ResumeAllActs(s, p);
    }
  }

  lemma OtherActs(s: State, c: Call, p: nat) returns (ops: seq<Op<Task>>)
    requires Invariant(s) && Enabled(s, c) && c != ContextSwitch
    ensures Acts(s, Perform(s, c), p, ops) && Removing(ops, Moved(s, c))
  {
    hide Invariant, Perform, Moved, Acts, Removing;
    match c
    case CreateTask(_, _) => ops := CreateActs(s, c, p);
    case DeleteTask(_) => ops := LeavingActs(s, c, p);
    case SuspendOne(_) => ops := LeavingActs(s, c, p);
    case CleanUpOne => ops := []; CleanUpActs(s, p); RemovingMore(ops, {}, Moved(s, c));
    case BlockFor(_, _, _) => ops := BlockActs(s, c, p);
    case TickOccurs => ops := ClockActs(s, c, p);
    case ResumeScheduler => ops := ClockActs(s, c, p);
    case SetPriority(_, _) => ops := PriorityActs(s, c, p);
    case SuspendScheduler => ops := []; FlagActs(s, c, p); RemovingMore(ops, {}, Moved(s, c));
    case CatchUp(_) => ops := []; FlagActs(s, c, p); RemovingMore(ops, {}, Moved(s, c));
    case Yield => ops := []; FlagActs(s, c, p); RemovingMore(ops, {}, Moved(s, c));
    case ClearNotification => ops := []; FlagActs(s, c, p); RemovingMore(ops, {}, Moved(s, c));
    case _ => ops := WakingActs(s, c, p);
  }

  // ---- Every run ----

  /** How many switches of a run find this ready list highest. */
  ghost function SwitchesAt(s: State, calls: seq<Call>, p: nat): nat
    requires Invariant(s) && Possible(s, calls)
    decreases |calls|
  {
    if calls == [] then 0 else
      StepKeeps(s, calls[0]);
      SelectionsAt(s, calls[0], p) + SwitchesAt(Perform(s, calls[0]), calls[1..], p)
  }

  /** Some switch of the run makes x the running task. */
  ghost predicate Runs(s: State, calls: seq<Call>, x: Task)
    requires Invariant(s) && Possible(s, calls)
    decreases |calls|
  {
    calls != [] &&
    (Switches(s, calls[0], x) || (StepKeeps(s, calls[0]); Runs(Perform(s, calls[0]), calls[1..], x)))
  }

  /** No call of the run moves x. */
  ghost predicate Unmoved(s: State, calls: seq<Call>, x: Task)
    requires Invariant(s) && Possible(s, calls)
    decreases |calls|
  {
    calls == [] ||
    (x !in Moved(s, calls[0]) && (StepKeeps(s, calls[0]); Unmoved(Perform(s, calls[0]), calls[1..], x)))
  }

  /** Every run of calls is, for each priority, a legal run of list operations. */
  lemma {:induction false} RunActs(s: State, calls: seq<Call>, p: nat) returns (ops: seq<Op<Task>>)
    requires Invariant(s) && Possible(s, calls)
    ensures Acts(s, Run(s, calls), p, ops)
    ensures Selections(ops) == SwitchesAt(s, calls, p)
    ensures forall x :: Served(Of(s.lists, Ready(p)), ops, x) ==> Runs(s, calls, x)
    ensures forall x: Task :: Unmoved(s, calls, x) ==> Remove(x) !in ops
    decreases |calls|
  {
    hide Invariant, Enabled, Perform, Moved, Switches, SelectionsAt;
    if calls == [] {
      ops := [];
      NoOps(s, s, p);
    } else {
      var a := CallActs(s, calls[0], p);
      StepKeeps(s, calls[0]);
      var r := Perform(s, calls[0]);
      var b := RunActs(r, calls[1..], p);
      Concat(Of(s.lists, Ready(p)), a, b);
      ops := a + b;
    }
  }

  /**
   A ready task that the index of its list has not passed, and that is not moved, runs within as many switches
   to its priority as there are tasks up to it in the rotation, whatever else happens in the run.
   */
  lemma RunsWithinRank(s: State, calls: seq<Call>, x: Task)
    requires Invariant(s) && Possible(s, calls)
    requires x in s.tcbs && s.tcbs[x].container.Ready? && Unmoved(s, calls, x)
    requires x in Of(s.lists, s.tcbs[x].container).items
    requires var w := Of(s.lists, s.tcbs[x].container);
      IndexOf(w.items, x) >= w.cursor && SwitchesAt(s, calls, s.tcbs[x].priority) > Rank(w, x)
    ensures Runs(s, calls, x)
  {
    var p := s.tcbs[x].priority;
    assert s.tcbs[x].container == Ready(p) && NoDup(Of(s.lists, Ready(p)).items);
    hide Invariant, Possible;
    var ops := RunActs(s, calls, p);
    BoundedWaitAhead(Of(s.lists, Ready(p)), ops, x);
  }
}
