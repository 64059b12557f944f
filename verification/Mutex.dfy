/**
 Mutexes: the accounting of holders, which holds in every run the source allows, and priority
 inheritance, which bounds inversion in the runs that are also disciplined in scheduling and nesting.
 */
module Mutex {
  import opened SeqLists

  type Task = nat
  type MutexId = nat

  datatype Option<T> = None | Some(value: T)

  /**
   What a task is doing about a mutex: nothing; in its event list; back at the top of the loop of
   xQueueSemaphoreTake, woken or timed out; or about to leave that loop having seen the mutex taken.
   */
  datatype Call =
    | NoCall
    | InList(id: MutexId, inherited: bool)
    | Retrying(id: MutexId, inherited: bool)
    | Leaving(id: MutexId, inherited: bool)

  datatype Tcb = Tcb(priority: nat, base: nat, held: nat, ready: bool, call: Call)

  /** `depth` is uxRecursiveCallCount. */
  datatype Mx = Mx(count: nat, holder: Option<Task>, waiters: seq<Task>, recursive: bool, depth: nat)

  datatype State = State(tasks: map<Task, Tcb>, mutexes: map<MutexId, Mx>)

  // ---- Priority inheritance ----

  /** xTaskPriorityInherit: the new record of the holder, and whether inheritance occurred. */
  function Inherit(holder: Tcb, priority: nat): (Tcb, bool) {
    if holder.priority < priority then (holder.(priority := priority), true) else (holder, holder.base < priority)
  }

  /** xTaskPriorityDisinherit */
  function Disinherit(holder: Tcb): Tcb
    requires holder.held > 0
  {
    var h := holder.(held := holder.held - 1);
    if h.priority != h.base && h.held == 0 then h.(priority := h.base) else h
  }

  /** vTaskPriorityDisinheritAfterTimeout */
  function DisinheritAfterTimeout(holder: Tcb, highestWaiting: nat): Tcb {
    var use := if holder.base < highestWaiting then highestWaiting else holder.base;
    if holder.priority != use && holder.held == 1 then holder.(priority := use) else holder
  }

  /** vTaskPrioritySet, as far as the two priorities are concerned. */
  function Reprioritised(b: Tcb, p: nat): Tcb {
    if b.base == p then b
    else if b.base == b.priority then b.(priority := p, base := p)
    else b.(base := p)
  }

  // ---- Steps ----

  datatype Step =
    | Take(task: Task, id: MutexId)
    | TakeAgain(task: Task, id: MutexId)
    | Block(task: Task, id: MutexId)
    | SeeTaken(task: Task)
    | Leave(task: Task)
    | Give(task: Task, id: MutexId)
    | GivePart(task: Task, id: MutexId)
    | Timeout(task: Task)
    | Sleep(task: Task)
    | WakeUp(task: Task)
    | SetPriority(task: Task, priority: nat)

  predicate Running(s: State, t: Task) {
    t in s.tasks && s.tasks[t].ready
  }

  predicate Wants(c: Call, id: MutexId) {
    c == NoCall || (c.Retrying? && c.id == id)
  }

  /** What the source itself demands: a ready task at the right place of its call, and a mutex in the right state. */
  predicate Enabled(s: State, step: Step) {
    match step
    case Take(t, m) => Running(s, t) && Wants(s.tasks[t].call, m) && m in s.mutexes && s.mutexes[m].count > 0
    case TakeAgain(t, m) =>
      && Running(s, t) && s.tasks[t].call == NoCall
      && m in s.mutexes && s.mutexes[m].recursive && s.mutexes[m].holder == Some(t)
    case Block(t, m) =>
      && Running(s, t) && Wants(s.tasks[t].call, m) && m in s.mutexes && s.mutexes[m].count == 0
    case SeeTaken(t) =>
      && Running(s, t) && s.tasks[t].call.Retrying?
      && s.tasks[t].call.id in s.mutexes && s.mutexes[s.tasks[t].call.id].count == 0
    case Leave(t) => Running(s, t) && s.tasks[t].call.Leaving? && s.tasks[t].call.id in s.mutexes
    case Give(t, m) =>
      && Running(s, t) && s.tasks[t].call == NoCall
      && m in s.mutexes && s.mutexes[m].holder == Some(t) && (s.mutexes[m].recursive ==> s.mutexes[m].depth == 1)
    case GivePart(t, m) =>
      && Running(s, t) && s.tasks[t].call == NoCall
      && m in s.mutexes && s.mutexes[m].recursive && s.mutexes[m].holder == Some(t) && s.mutexes[m].depth > 1
    case Timeout(t) => t in s.tasks && s.tasks[t].call.InList? && s.tasks[t].call.id in s.mutexes
    case Sleep(t) => t in s.tasks && s.tasks[t].call == NoCall
    case WakeUp(t) => t in s.tasks && s.tasks[t].call == NoCall
    case SetPriority(t, p) => t in s.tasks
  }

  function Updated(s: State, t: Task, b: Tcb): State {
    s.(tasks := s.tasks[t := b])
  }

  function With(s: State, m: MutexId, x: Mx): State {
    s.(mutexes := s.mutexes[m := x])
  }

  function Priority(tasks: map<Task, Tcb>, t: Task): nat {
    if t in tasks then tasks[t].priority else 0
  }

  /** prvGetDisinheritPriorityAfterTimeout */
  function HighestWaiting(tasks: map<Task, Tcb>, waiters: seq<Task>): nat {
    if waiters == [] then 0 else Priority(tasks, waiters[0])
  }

  /** The place vListInsert chooses in an event list: after all waiters of at least this priority. */
  function WaitPosition(tasks: map<Task, Tcb>, waiters: seq<Task>, priority: nat): (p: nat)
    ensures p <= |waiters|
    ensures p < |waiters| ==> Priority(tasks, waiters[p]) < priority
    ensures forall i :: 0 <= i < p ==> priority <= Priority(tasks, waiters[i])
  {
    if waiters == [] || Priority(tasks, waiters[0]) < priority then 0
    else 1 + WaitPosition(tasks, waiters[1..], priority)
  }

  function Taken(s: State, t: Task, m: MutexId): State
    requires t in s.tasks && m in s.mutexes && s.mutexes[m].count > 0
  {
    var x := s.mutexes[m];
    With(Updated(s, t, s.tasks[t].(held := s.tasks[t].held + 1, call := NoCall)), m,
         x.(count := x.count - 1, holder := Some(t), depth := if x.recursive then x.depth + 1 else x.depth))
  }

  /** Inherits on behalf of t, and puts t into the event list. */
  function Blocked(s: State, t: Task, m: MutexId): State
    requires t in s.tasks && m in s.mutexes
  {
    var x, p := s.mutexes[m], s.tasks[t].priority;
    var r := if x.holder.Some? && x.holder.value in s.tasks then Inherit(s.tasks[x.holder.value], p)
      else (s.tasks[t], false);
    var s1 := if x.holder.Some? && x.holder.value in s.tasks then Updated(s, x.holder.value, r.0) else s;
    var s2 := Updated(s1, t, s1.tasks[t].(ready := false, call := InList(m, r.1)));
    With(s2, m, x.(waiters := InsertAt(x.waiters, WaitPosition(s.tasks, x.waiters, p), t)))
  }

  /** The last critical section of a take that timed out. */
  function Left(s: State, t: Task): State
    requires t in s.tasks && s.tasks[t].call.Leaving? && s.tasks[t].call.id in s.mutexes
  {
    var x, c := s.mutexes[s.tasks[t].call.id], s.tasks[t].call;
    var s1 := if c.inherited && x.holder.Some? && x.holder.value in s.tasks
              then
                var waiting := HighestWaiting(s.tasks, x.waiters);
                Updated(s, x.holder.value, DisinheritAfterTimeout(s.tasks[x.holder.value], waiting))
              else s;
    Updated(s1, t, s1.tasks[t].(call := NoCall))
  }

  /** Gives the mutex back and wakes the first waiter. */
  function Given(s: State, t: Task, m: MutexId): State
    requires t in s.tasks && m in s.mutexes && s.tasks[t].held > 0
  {
    var x := s.mutexes[m];
    var s1 := Updated(s, t, Disinherit(s.tasks[t]));
    var y := x.(count := x.count + 1, holder := None,
                depth := if x.recursive && x.depth > 0 then x.depth - 1 else x.depth);
    if x.waiters == [] || x.waiters[0] !in s1.tasks then With(s1, m, y)
    else
      var w := x.waiters[0];
      var b := s1.tasks[w];
      With(Updated(s1, w, b.(ready := true, call := Retrying(m, b.call.InList? && b.call.inherited))), m,
           y.(waiters := x.waiters[1..]))
  }

  function TimedOut(s: State, t: Task): State
    requires t in s.tasks && s.tasks[t].call.InList? && s.tasks[t].call.id in s.mutexes
  {
    var b := s.tasks[t];
    var x := s.mutexes[b.call.id];
    With(Updated(s, t, b.(ready := true, call := Retrying(b.call.id, b.call.inherited))), b.call.id,
         x.(waiters := Without(x.waiters, t)))
  }

  ghost function Perform(s: State, step: Step): State
    requires Accounted(s) && Enabled(s, step)
  {
    match step
    case Take(t, m) => Taken(s, t, m)
    case TakeAgain(t, m) => With(s, m, s.mutexes[m].(depth := s.mutexes[m].depth + 1))
    case Block(t, m) => Blocked(s, t, m)
    case SeeTaken(t) => Updated(s, t, s.tasks[t].(call := Leaving(s.tasks[t].call.id, s.tasks[t].call.inherited)))
    case Leave(t) => Left(s, t)
    case Give(t, m) => HolderHolds(s, t, m); Given(s, t, m)
    case GivePart(t, m) => With(s, m, s.mutexes[m].(depth := s.mutexes[m].depth - 1))
    case Timeout(t) => TimedOut(s, t)
    case Sleep(t) => Updated(s, t, s.tasks[t].(ready := false))
    case WakeUp(t) => Updated(s, t, s.tasks[t].(ready := true))
    case SetPriority(t, p) => Updated(s, t, Reprioritised(s.tasks[t], p))
  }

  // ---- Accounting ----

  function HeldBy(mutexes: map<MutexId, Mx>, t: Task): set<MutexId> {
    set m | m in mutexes && mutexes[m].holder == Some(t)
  }

  /** Holders are counted exactly, and a task that holds nothing has its base priority. */
  ghost predicate Accounted(s: State) {
    && (forall t :: t in s.tasks ==> s.tasks[t].held == |HeldBy(s.mutexes, t)|)
    && (forall t :: t in s.tasks && s.tasks[t].held == 0 ==> s.tasks[t].priority == s.tasks[t].base)
    && (forall m :: m in s.mutexes ==> MutexCounted(s.mutexes[m], s.tasks.Keys))
  }

  ghost predicate MutexCounted(x: Mx, tasks: set<Task>) {
    && x.count == (if x.holder == None then 1 else 0)
    && (x.holder.Some? ==> x.holder.value in tasks)
    && (x.recursive ==> (x.depth == 0 <==> x.holder == None))
  }

  lemma HolderHolds(s: State, t: Task, m: MutexId)
    requires Accounted(s) && t in s.tasks && m in s.mutexes && s.mutexes[m].holder == Some(t)
    ensures s.tasks[t].held > 0
    ensures s.tasks[t].held == 1 ==> HeldBy(s.mutexes, t) == {m}
  {
    assert m in HeldBy(s.mutexes, t);
    assert HeldBy(s.mutexes, t) == (HeldBy(s.mutexes, t) - {m}) + {m};
  }

  function Holds(x: Mx, t: Task): int {
    if x.holder == Some(t) then 1 else 0
  }

  lemma HeldUpdate(mutexes: map<MutexId, Mx>, m: MutexId, x: Mx, t: Task)
    requires m in mutexes
    ensures var n := |HeldBy(mutexes[m := x], t)| - |HeldBy(mutexes, t)|;
      n == Holds(x, t) - Holds(mutexes[m], t)
  {
    var rest := HeldBy(mutexes, t) - {m};
    assert HeldBy(mutexes[m := x], t) == if x.holder == Some(t) then rest + {m} else rest;
    assert HeldBy(mutexes, t) == if mutexes[m].holder == Some(t) then rest + {m} else rest;
  }

  /** Changing a mutex and at most its old and new holder's counts. */
  lemma AccountedWith(s: State, r: State, m: MutexId)
    requires Accounted(s) && m in s.mutexes && r.tasks.Keys == s.tasks.Keys
    requires m in r.mutexes && r.mutexes == s.mutexes[m := r.mutexes[m]] && MutexCounted(r.mutexes[m], r.tasks.Keys)
    requires forall t :: t in r.tasks ==>
      r.tasks[t].held - s.tasks[t].held == Holds(r.mutexes[m], t) - Holds(s.mutexes[m], t)
    requires forall t :: t in r.tasks && r.tasks[t].held == 0 ==> r.tasks[t].priority == r.tasks[t].base
    ensures Accounted(r)
  {
    forall t | t in r.tasks ensures r.tasks[t].held == |HeldBy(r.mutexes, t)| {
      HeldUpdate(s.mutexes, m, r.mutexes[m], t);
    }
  }

  /** Changing only what tasks are doing and, for a task that holds something, its priorities. */
  lemma AccountedTasks(s: State, r: State)
    requires Accounted(s) && r.tasks.Keys == s.tasks.Keys && r.mutexes == s.mutexes
    requires forall t :: t in r.tasks ==> r.tasks[t].held == s.tasks[t].held
    requires forall t :: t in r.tasks && r.tasks[t].held == 0 ==> r.tasks[t].priority == r.tasks[t].base
    ensures Accounted(r)
  {
  }

  lemma StepAccounts(s: State, step: Step)
    requires Accounted(s) && Enabled(s, step)
    ensures Accounted(Perform(s, step))
  {
    hide Accounted, Taken, Blocked, Left, Given, TimedOut;
    match step
    case Take(t, m) => TakeAccounts(s, t, m);
    case TakeAgain(t, m) => DepthAccounts(s, m, s.mutexes[m].depth + 1);
    case Block(t, m) => BlockAccounts(s, t, m);
    case SeeTaken(t) => CallAccounts(s, step);
    case Leave(t) => LeaveAccounts(s, t);
    case Give(t, m) => HolderHolds(s, t, m); GiveAccounts(s, t, m);
    case GivePart(t, m) => DepthAccounts(s, m, s.mutexes[m].depth - 1);
    case Timeout(t) => TimeoutAccounts(s, t);
    case _ => CallAccounts(s, step);
  }

  lemma CallAccounts(s: State, step: Step)
    requires Accounted(s) && Enabled(s, step)
    requires step.SeeTaken? || step.Sleep? || step.WakeUp? || step.SetPriority?
    ensures Accounted(Perform(s, step))
  {
    AccountedTasks(s, Perform(s, step));
  }

  lemma TakeAccounts(s: State, t: Task, m: MutexId)
    requires Accounted(s) && t in s.tasks && m in s.mutexes && s.mutexes[m].count > 0
    ensures Accounted(Taken(s, t, m))
  {
    AccountedWith(s, Taken(s, t, m), m);
  }

  lemma DepthAccounts(s: State, m: MutexId, depth: nat)
    requires Accounted(s) && m in s.mutexes && s.mutexes[m].holder.Some? && depth > 0
    ensures Accounted(With(s, m, s.mutexes[m].(depth := depth)))
  {
    AccountedWith(s, With(s, m, s.mutexes[m].(depth := depth)), m);
  }

  lemma TimeoutAccounts(s: State, t: Task)
    requires Accounted(s) && Enabled(s, Timeout(t))
    ensures Accounted(TimedOut(s, t))
  {
    AccountedWith(s, TimedOut(s, t), s.tasks[t].call.id);
  }

  lemma BlockAccounts(s: State, t: Task, m: MutexId)
    requires Accounted(s) && Enabled(s, Block(t, m))
    ensures Accounted(Blocked(s, t, m))
  {
    var x := s.mutexes[m];
    HolderHolds(s, x.holder.value, m);
    AccountedWith(s, Blocked(s, t, m), m);
  }

  lemma LeaveAccounts(s: State, t: Task)
    requires Accounted(s) && Enabled(s, Leave(t))
    ensures Accounted(Left(s, t))
  {
    var m := s.tasks[t].call.id;
    if s.mutexes[m].holder.Some? {
      HolderHolds(s, s.mutexes[m].holder.value, m);
    }
    AccountedTasks(s, Left(s, t));
  }

  lemma GiveAccounts(s: State, t: Task, m: MutexId)
    requires Accounted(s) && Enabled(s, Give(t, m))
    ensures s.tasks[t].held > 0 && Accounted(Given(s, t, m))
  {
    HolderHolds(s, t, m);
    AccountedWith(s, Given(s, t, m), m);
  }

  // ---- Bounded inversion ----

  /** Waiting in the event list of m.  No task blocks on a mutex while it holds one. */
  predicate InListOf(b: Tcb, m: MutexId) {
    b.call.InList? && b.call.id == m && !b.ready && b.held == 0
  }

  ghost predicate ListAgrees(tasks: map<Task, Tcb>, m: MutexId, waiters: seq<Task>) {
    && NoDup(waiters)
    && (forall w :: w in waiters ==> w in tasks && InListOf(tasks[w], m))
    && (forall i, j :: 0 <= i < j < |waiters| ==> Priority(tasks, waiters[i]) >= Priority(tasks, waiters[j]))
  }

  ghost predicate Dominates(tasks: map<Task, Tcb>, u: Task, waiters: seq<Task>) {
    forall w :: w in waiters ==> Priority(tasks, w) <= Priority(tasks, u)
  }

  /** A task that will try to take m the next time it runs. */
  predicate WillTry(tasks: map<Task, Tcb>, u: Task, m: MutexId) {
    u in tasks && tasks[u].ready && tasks[u].call.Retrying? && tasks[u].call.id == m
  }

  /** The holder has at least every waiter's priority; while there is no holder, a task about to take m has. */
  ghost predicate Bounded(tasks: map<Task, Tcb>, m: MutexId, x: Mx) {
    if x.holder.Some? then Dominates(tasks, x.holder.value, x.waiters)
    else x.waiters == [] || exists u :: WillTry(tasks, u, m) && Dominates(tasks, u, x.waiters)
  }

  ghost predicate MutexAgrees(tasks: map<Task, Tcb>, m: MutexId, x: Mx) {
    ListAgrees(tasks, m, x.waiters) && Bounded(tasks, m, x)
  }

  ghost predicate CallAgrees(b: Tcb, t: Task, mutexes: map<MutexId, Mx>) {
    && (b.call != NoCall ==> b.held == 0)
    && (b.call.InList? ==> b.call.id in mutexes && t in mutexes[b.call.id].waiters)
    && (b.call.Retrying? ==> b.ready)
  }

  ghost predicate Invariant(s: State) {
    && Accounted(s)
    && (forall m :: m in s.mutexes ==> MutexAgrees(s.tasks, m, s.mutexes[m]))
    && (forall t :: t in s.tasks ==> CallAgrees(s.tasks[t], t, s.mutexes))
  }

  // ---- What inheritance presupposes ----

  /** No ready task has a priority above this. */
  ghost predicate Highest(tasks: map<Task, Tcb>, priority: nat) {
    forall u :: u in tasks && tasks[u].ready ==> tasks[u].priority <= priority
  }

  /** Every task waiting for a mutex that t holds has at most priority p. */
  ghost predicate CoversWaiters(s: State, t: Task, p: nat) {
    forall m, w :: m in s.mutexes && s.mutexes[m].holder == Some(t) && w in s.mutexes[m].waiters ==>
      Priority(s.tasks, w) <= p
  }

  /** Another task than t is about to try m and has at least the priority of every waiter. */
  ghost predicate OtherDominates(tasks: map<Task, Tcb>, m: MutexId, waiters: seq<Task>, t: Task) {
    exists u :: u != t && WillTry(tasks, u, m) && Dominates(tasks, u, waiters)
  }

  /** With priority p, t can still be the task about to try m, or it is not needed as one. */
  ghost predicate CanTry(tasks: map<Task, Tcb>, m: MutexId, x: Mx, t: Task, p: nat) {
    || x.holder.Some?
    || (forall w :: w in x.waiters ==> Priority(tasks, w) <= p)
    || OtherDominates(tasks, m, x.waiters, t)
  }

  /**
   A priority that can be set: the task is using an inherited one anyway, or the new one covers the
   waiters of its mutexes and, if the task has been woken for a mutex, those of that mutex.
   */
  ghost predicate SafePriority(s: State, t: Task, p: nat) {
    t in s.tasks ==>
      var b := s.tasks[t];
      || b.base != b.priority || b.base == p
      || (CoversWaiters(s, t, p)
          && (b.call.Retrying? && b.call.id in s.mutexes ==> CanTry(s.tasks, b.call.id, s.mutexes[b.call.id], t, p)))
  }

  /**
   A mutex is taken by a task that no ready task outranks, no task blocks on one while it holds
   another, and a priority is set safely, and not on a task in an event list.
   */
  ghost predicate Disciplined(s: State, step: Step) {
    match step
    case Take(t, _) => t in s.tasks && Highest(s.tasks, s.tasks[t].priority)
    case Block(t, _) => t in s.tasks && s.tasks[t].held == 0
    case SetPriority(t, p) => t in s.tasks && !s.tasks[t].call.InList? && SafePriority(s, t, p)
    case _ => true
  }

  /** What may happen to the tasks without affecting one mutex. */
  ghost predicate Untouched(m: MutexId, x: Mx, before: map<Task, Tcb>, after: map<Task, Tcb>) {
    && after.Keys == before.Keys
    && (forall t :: t in x.waiters ==> t in before && InListOf(after[t], m) && after[t].priority == before[t].priority)
    && (forall t :: WillTry(before, t, m) ==> WillTry(after, t, m) && after[t].priority == before[t].priority)
    && (forall t :: t in before && x.holder == Some(t) ==> after[t].priority >= before[t].priority)
  }

  lemma Frame(m: MutexId, x: Mx, before: map<Task, Tcb>, after: map<Task, Tcb>)
    requires MutexAgrees(before, m, x) && Untouched(m, x, before, after)
    requires x.holder.Some? ==> x.holder.value in before
    ensures MutexAgrees(after, m, x)
  {
    if x.holder.None? && x.waiters != [] {
      var u :| WillTry(before, u, m) && Dominates(before, u, x.waiters);
      assert WillTry(after, u, m) && Dominates(after, u, x.waiters);
    }
  }

  /** A step that concerns m alone keeps the other mutexes' bounds. */
  ghost predicate OnlyConcerns(s: State, r: State, m: MutexId) {
    && m in s.mutexes && m in r.mutexes && r.mutexes == s.mutexes[m := r.mutexes[m]]
    && forall n :: n in s.mutexes && n != m ==> Untouched(n, s.mutexes[n], s.tasks, r.tasks)
  }

  lemma Others(s: State, r: State, m: MutexId)
    requires Invariant(s) && OnlyConcerns(s, r, m) && MutexAgrees(r.tasks, m, r.mutexes[m])
    ensures forall n :: n in r.mutexes ==> MutexAgrees(r.tasks, n, r.mutexes[n])
  {
    forall n | n in r.mutexes ensures MutexAgrees(r.tasks, n, r.mutexes[n]) {
      if n != m {
        Frame(n, s.mutexes[n], s.tasks, r.tasks);
      }
    }
  }

  /** A step that affects two tasks, neither waiting for m nor about to try it nor a holder losing priority. */
  lemma UntouchedBy(m: MutexId, x: Mx, before: map<Task, Tcb>, after: map<Task, Tcb>, t: Task, u: Task)
    requires ListAgrees(before, m, x.waiters) && after.Keys == before.Keys
    requires forall v :: v in before && v != t && v != u ==> after[v] == before[v]
    requires t !in x.waiters && u !in x.waiters && !WillTry(before, t, m) && !WillTry(before, u, m)
    requires x.holder == Some(t) && t in before ==> after[t].priority >= before[t].priority
    requires x.holder == Some(u) && u in before ==> after[u].priority >= before[u].priority
    ensures Untouched(m, x, before, after)
  {
    hide NoDup;
  }

  lemma TaskStepUntouched(s: State, t: Task, b: Tcb, n: MutexId)
    requires Invariant(s) && t in s.tasks && n in s.mutexes
    requires t !in s.mutexes[n].waiters && !WillTry(s.tasks, t, n)
    requires s.mutexes[n].holder == Some(t) ==> b.priority >= s.tasks[t].priority
    ensures Untouched(n, s.mutexes[n], s.tasks, s.tasks[t := b])
  {
    hide Accounted, Bounded, ListAgrees, WillTry;
    assert MutexAgrees(s.tasks, n, s.mutexes[n]);
    UntouchedBy(n, s.mutexes[n], s.tasks, s.tasks[t := b], t, t);
  }

  lemma NotHolder(s: State, t: Task, n: MutexId)
    requires Accounted(s) && t in s.tasks && n in s.mutexes && s.tasks[t].held == 0
    ensures s.mutexes[n].holder != Some(t)
  {
    if s.mutexes[n].holder == Some(t) {
      HolderHolds(s, t, n);
    }
  }

  lemma NotListed(s: State, t: Task, n: MutexId)
    requires Invariant(s) && t in s.tasks && n in s.mutexes
    ensures s.tasks[t].ready || s.tasks[t].call == NoCall || s.tasks[t].held > 0 ==> t !in s.mutexes[n].waiters
    ensures s.tasks[t].call != NoCall && s.tasks[t].call.id != n ==>
      t !in s.mutexes[n].waiters && !WillTry(s.tasks, t, n)
    ensures s.tasks[t].held > 0 ==> !WillTry(s.tasks, t, n)
  {
    hide Accounted, Bounded;
    assert MutexAgrees(s.tasks, n, s.mutexes[n]) && CallAgrees(s.tasks[t], t, s.mutexes);
  }

  lemma TakeBounded(s: State, t: Task, m: MutexId)
    requires Invariant(s) && Enabled(s, Take(t, m)) && Disciplined(s, Take(t, m))
    ensures var r := Taken(s, t, m); forall n :: n in r.mutexes ==> MutexAgrees(r.tasks, n, r.mutexes[n])
  {
    hide Accounted;
    var r, x := Taken(s, t, m), s.mutexes[m];
    assert x.holder == None by { TakeAccountsHolder(s, m); }
    forall n | n in s.mutexes && n != m ensures Untouched(n, s.mutexes[n], s.tasks, r.tasks) {
      NotListed(s, t, n);
      TaskStepUntouched(s, t, r.tasks[t], n);
    }
    NotListed(s, t, m);
    assert MutexAgrees(s.tasks, m, x);
    if x.waiters != [] {
      var u :| WillTry(s.tasks, u, m) && Dominates(s.tasks, u, x.waiters);
    }
    Others(s, r, m);
  }

  lemma TakeAccountsHolder(s: State, m: MutexId)
    requires Accounted(s) && m in s.mutexes
    ensures s.mutexes[m].count > 0 <==> s.mutexes[m].holder == None
    ensures s.mutexes[m].holder.Some? ==> s.mutexes[m].holder.value in s.tasks
  {
  }

  lemma HolderIsBusyElsewhere(s: State, h: Task, n: MutexId)
    requires Invariant(s) && h in s.tasks && s.tasks[h].held > 0 && n in s.mutexes
    ensures h !in s.mutexes[n].waiters && !WillTry(s.tasks, h, n)
  {
    NotListed(s, h, n);
  }

  lemma InsertOrder(tasks: map<Task, Tcb>, waiters: seq<Task>, t: Task, p: nat)
    requires NoDup(waiters) && t !in waiters && p == WaitPosition(tasks, waiters, Priority(tasks, t))
    requires forall i, j :: 0 <= i < j < |waiters| ==> Priority(tasks, waiters[i]) >= Priority(tasks, waiters[j])
    ensures var w := InsertAt(waiters, p, t);
      NoDup(w) && (forall u :: u in w <==> u in waiters || u == t)
      && forall i, j :: 0 <= i < j < |w| ==> Priority(tasks, w[i]) >= Priority(tasks, w[j])
  {
    InsertAtMembers(waiters, p, t);
  }

  /**
   The holder inherits, so the bound extends to the new waiter; the list stays in priority order.  The holder
   ends up with the larger of its priority and the new waiter's, and nobody else's priority changes.
   */
  lemma BlockBounded(s: State, t: Task, m: MutexId)
    requires Invariant(s) && Enabled(s, Block(t, m)) && s.tasks[t].held == 0
    ensures var r := Blocked(s, t, m); forall n :: n in r.mutexes ==> MutexAgrees(r.tasks, n, r.mutexes[n])
    ensures s.mutexes[m].holder.Some? && s.mutexes[m].holder.value in s.tasks && s.mutexes[m].holder.value != t
    ensures var h, p := s.mutexes[m].holder.value, s.tasks[t].priority;
      Blocked(s, t, m).tasks ==
        s.tasks[h := s.tasks[h].(priority := if s.tasks[h].priority < p then p else s.tasks[h].priority)]
               [t := s.tasks[t].(ready := false, call := InList(m, s.tasks[h].base < p || s.tasks[h].priority < p))]
  {
    hide Accounted;
    var r := Blocked(s, t, m);
    TakeAccountsHolder(s, m);
    HolderHolds(s, s.mutexes[m].holder.value, m);
    BlockedFields(s, t, m, s.mutexes[m].holder.value);
    forall n | n in s.mutexes && n != m ensures Untouched(n, s.mutexes[n], s.tasks, r.tasks) {
      BlockUntouched(s, t, m, n);
    }
    BlockSelf(s, t, m);
    Others(s, r, m);
  }

  lemma BlockedFields(s: State, t: Task, m: MutexId, h: Task)
    requires t in s.tasks && m in s.mutexes && s.mutexes[m].holder == Some(h) && h in s.tasks && h != t
    ensures var r, x := Blocked(s, t, m), s.mutexes[m];
      var i := Inherit(s.tasks[h], s.tasks[t].priority);
      && r.tasks == s.tasks[h := i.0][t := s.tasks[t].(ready := false, call := InList(m, i.1))]
      && r.mutexes == s.mutexes[m := x.(
           waiters := InsertAt(x.waiters, WaitPosition(s.tasks, x.waiters, s.tasks[t].priority), t))]
      && i.0.priority >= s.tasks[h].priority && i.0.priority >= s.tasks[t].priority
      && i.0 == s.tasks[h].(priority := i.0.priority)
  {
    hide WaitPosition, InsertAt;
  }

  lemma BlockUntouched(s: State, t: Task, m: MutexId, n: MutexId)
    requires Invariant(s) && Enabled(s, Block(t, m)) && s.tasks[t].held == 0 && n in s.mutexes && n != m
    requires s.mutexes[m].holder.Some? && s.mutexes[m].holder.value in s.tasks
      && s.tasks[s.mutexes[m].holder.value].held > 0
    ensures Untouched(n, s.mutexes[n], s.tasks, Blocked(s, t, m).tasks)
  {
    hide Accounted, Bounded, ListAgrees, CallAgrees, Blocked, Inherit, WaitPosition, InsertAt, Untouched;
    var h := s.mutexes[m].holder.value;
    NotListed(s, t, n);
    HolderIsBusyElsewhere(s, h, n);
    NotHolder(s, t, n);
    BlockedFields(s, t, m, h);
    assert MutexAgrees(s.tasks, n, s.mutexes[n]);
    UntouchedBy(n, s.mutexes[n], s.tasks, Blocked(s, t, m).tasks, t, h);
  }

  lemma BlockSelf(s: State, t: Task, m: MutexId)
    requires Invariant(s) && Enabled(s, Block(t, m)) && s.tasks[t].held == 0
    requires s.mutexes[m].holder.Some? && s.mutexes[m].holder.value in s.tasks
      && s.tasks[s.mutexes[m].holder.value].held > 0
    ensures MutexAgrees(Blocked(s, t, m).tasks, m, Blocked(s, t, m).mutexes[m])
  {
    var r, x := Blocked(s, t, m), s.mutexes[m];
    NotListed(s, t, m);
    HolderIsBusyElsewhere(s, x.holder.value, m);
    hide Accounted, InsertAt, WaitPosition, Blocked, Inherit;
    assert MutexAgrees(s.tasks, m, x);
    BlockedFields(s, t, m, x.holder.value);
    BlockList(s, t, m, x.holder.value);
  }

  lemma BlockList(s: State, t: Task, m: MutexId, h: Task)
    requires t in s.tasks && m in s.mutexes && s.mutexes[m].holder == Some(h) && h in s.tasks && h != t
      && s.tasks[t].held == 0
    requires MutexAgrees(s.tasks, m, s.mutexes[m]) && h !in s.mutexes[m].waiters && t !in s.mutexes[m].waiters
    ensures MutexAgrees(Blocked(s, t, m).tasks, m, Blocked(s, t, m).mutexes[m])
  {
    hide InsertAt, WaitPosition, Blocked, Inherit;
    var r, x := Blocked(s, t, m), s.mutexes[m];
    BlockedFields(s, t, m, h);
    InsertOrder(s.tasks, x.waiters, t, WaitPosition(s.tasks, x.waiters, s.tasks[t].priority));
    forall u | u in r.mutexes[m].waiters
      ensures u in r.tasks && InListOf(r.tasks[u], m) && Priority(r.tasks, u) == Priority(s.tasks, u) {
    }
  }

  lemma SeeTakenBounded(s: State, t: Task)
    requires Invariant(s) && Enabled(s, SeeTaken(t))
    ensures var r := Perform(s, SeeTaken(t)); forall n :: n in r.mutexes ==> MutexAgrees(r.tasks, n, r.mutexes[n])
  {
    hide Accounted;
    var r, m := Perform(s, SeeTaken(t)), s.tasks[t].call.id;
    TakeAccountsHolder(s, m);
    forall n | n in s.mutexes && n != m ensures Untouched(n, s.mutexes[n], s.tasks, r.tasks) {
      NotListed(s, t, n);
      TaskStepUntouched(s, t, r.tasks[t], n);
    }
    NotListed(s, t, m);
    assert MutexAgrees(s.tasks, m, s.mutexes[m]);
    Others(s, r, m);
  }

  /** The largest of these: the holder's base priority, and the priorities of the waiters. */
  ghost predicate HighestOf(tasks: map<Task, Tcb>, base: nat, waiters: seq<Task>, p: nat) {
    && base <= p && (forall w :: w in waiters ==> Priority(tasks, w) <= p)
    && (p == base || exists w :: w in waiters && Priority(tasks, w) == p)
  }

  lemma HighestWaitingIs(tasks: map<Task, Tcb>, base: nat, waiters: seq<Task>)
    requires forall i, j :: 0 <= i < j < |waiters| ==> Priority(tasks, waiters[i]) >= Priority(tasks, waiters[j])
    ensures var h := HighestWaiting(tasks, waiters);
      HighestOf(tasks, base, waiters, if base < h then h else base)
  {
    if waiters != [] {
      assert waiters[0] in waiters;
      forall w | w in waiters ensures Priority(tasks, w) <= HighestWaiting(tasks, waiters) {
        var i :| 0 <= i < |waiters| && waiters[i] == w;
      }
    }
  }

  /** After a timeout the holder keeps at least the priority of the waiters of its only mutex. */
  lemma LeaveBounded(s: State, t: Task)
    requires Invariant(s) && Enabled(s, Leave(t))
    ensures var r := Left(s, t); forall n :: n in r.mutexes ==> MutexAgrees(r.tasks, n, r.mutexes[n])
  {
    hide Accounted;
    var r, m := Left(s, t), s.tasks[t].call.id;
    TakeAccountsHolder(s, m);
    if s.mutexes[m].holder.Some? {
      HolderHolds(s, s.mutexes[m].holder.value, m);
    }
    forall n | n in s.mutexes ensures MutexAgrees(r.tasks, n, r.mutexes[n]) {
      LeaveOne(s, t, n);
    }
  }

  /** What the holder of x is left with when a waiter has timed out. */
  ghost predicate LoweredTo(s: State, r: State, x: Mx, inherited: bool)
    requires x.holder.Some?
  {
    var h := x.holder.value;
    && h in s.tasks && h in r.tasks && r.tasks[h] == s.tasks[h].(priority := r.tasks[h].priority)
    && if inherited && s.tasks[h].held == 1
       then HighestOf(s.tasks, s.tasks[h].base, x.waiters, r.tasks[h].priority)
       else r.tasks[h].priority == s.tasks[h].priority
  }

  /**
   If the waiter that timed out had made the holder inherit, a holder of this mutex alone gets the highest of
   its base priority and the remaining waiters'.  A holder of more keeps its own, and so does every other task.
   */
  lemma LeaveExact(s: State, t: Task)
    requires Invariant(s) && Enabled(s, Leave(t))
    ensures var r, x := Left(s, t), s.mutexes[s.tasks[t].call.id];
      && (forall u :: u in s.tasks && u != t && x.holder != Some(u) ==> r.tasks[u] == s.tasks[u])
      && r.tasks[t] == s.tasks[t].(call := NoCall)
      && (x.holder.Some? ==> LoweredTo(s, r, x, s.tasks[t].call.inherited))
  {
    var x := s.mutexes[s.tasks[t].call.id];
    assert CallAgrees(s.tasks[t], t, s.mutexes) && MutexAgrees(s.tasks, s.tasks[t].call.id, x);
    TakeAccountsHolder(s, s.tasks[t].call.id);
    NotHolder(s, t, s.tasks[t].call.id);
    hide Accounted, MutexAgrees, HighestOf;
    if x.holder.Some? {
      HighestWaitingIs(s.tasks, s.tasks[x.holder.value].base, x.waiters);
    }
  }

  lemma LeaveOne(s: State, t: Task, n: MutexId)
    requires Invariant(s) && Enabled(s, Leave(t)) && n in s.mutexes
    ensures MutexAgrees(Left(s, t).tasks, n, s.mutexes[n])
  {
    var r, x, m := Left(s, t), s.mutexes[n], s.tasks[t].call.id;
    TakeAccountsHolder(s, m);
    TakeAccountsHolder(s, n);
    NotListed(s, t, n);
    assert MutexAgrees(s.tasks, n, x) && CallAgrees(s.tasks[t], t, s.mutexes);
    NotHolder(s, t, n);
    NotHolder(s, t, m);
    if s.mutexes[m].holder.Some? {
      var h := s.mutexes[m].holder.value;
      HolderHolds(s, h, m);
      HolderIsBusyElsewhere(s, h, n);
      if n == m {
        hide Accounted, MutexAgrees;
        LeaveHolder(s, t, h);
      } else {
        if s.tasks[h].held == 1 { OnlyMutex(s, h, m, n); }
        LeaveOther(s, t, h, n);
      }
    } else {
      hide Accounted, Bounded, ListAgrees;
      UntouchedBy(n, x, s.tasks, r.tasks, t, t);
      Frame(n, x, s.tasks, r.tasks);
    }
  }

  lemma LeaveOther(s: State, t: Task, h: Task, n: MutexId)
    requires t in s.tasks && s.tasks[t].call.Leaving? && s.tasks[t].call.id in s.mutexes && n in s.mutexes
      && h in s.tasks
    requires s.mutexes[s.tasks[t].call.id].holder == Some(h) && h != t && n != s.tasks[t].call.id
    requires var x := s.mutexes[n];
      && MutexAgrees(s.tasks, n, x) && t !in x.waiters && h !in x.waiters && !WillTry(s.tasks, h, n)
      && x.holder != Some(t) && (x.holder.Some? ==> x.holder.value in s.tasks)
      && (x.holder == Some(h) ==> s.tasks[h].held != 1)
    ensures MutexAgrees(Left(s, t).tasks, n, s.mutexes[n])
  {
    hide Bounded, ListAgrees;
    UntouchedBy(n, s.mutexes[n], s.tasks, Left(s, t).tasks, t, h);
    Frame(n, s.mutexes[n], s.tasks, Left(s, t).tasks);
  }

  lemma LeaveHolder(s: State, t: Task, h: Task)
    requires t in s.tasks && s.tasks[t].call.Leaving? && s.tasks[t].call.id in s.mutexes && h != t && h in s.tasks
    requires var x := s.mutexes[s.tasks[t].call.id];
      && x.holder == Some(h) && MutexAgrees(s.tasks, s.tasks[t].call.id, x) && h !in x.waiters && t !in x.waiters
    ensures MutexAgrees(Left(s, t).tasks, s.tasks[t].call.id, s.mutexes[s.tasks[t].call.id])
  {
    var r, x := Left(s, t), s.mutexes[s.tasks[t].call.id];
    forall w | w in x.waiters ensures r.tasks[w] == s.tasks[w] && Priority(r.tasks, w) <= Priority(r.tasks, h) {
      assert Priority(s.tasks, w) <= HighestWaiting(s.tasks, x.waiters) by {
        var i :| 0 <= i < |x.waiters| && x.waiters[i] == w;
      }
    }
  }

  /** The first waiter is woken; being first, it has at least the priority of the rest. */
  lemma GiveBounded(s: State, t: Task, m: MutexId)
    requires Invariant(s) && Enabled(s, Give(t, m)) && s.tasks[t].held > 0
    ensures var r := Given(s, t, m); forall n :: n in r.mutexes ==> MutexAgrees(r.tasks, n, r.mutexes[n])
    ensures var r, w := Given(s, t, m), s.mutexes[m].waiters;
      && r.tasks[t].priority == (if s.tasks[t].held == 1 then s.tasks[t].base else s.tasks[t].priority)
      && (w != [] ==>
            && w[0] in s.tasks && s.tasks[w[0]].call.InList? && r.mutexes[m].waiters == w[1..]
            && r.tasks[w[0]] == s.tasks[w[0]].(ready := true, call := Retrying(m, s.tasks[w[0]].call.inherited)))
  {
    hide Accounted;
    var r := Given(s, t, m);
    assert MutexAgrees(s.tasks, m, s.mutexes[m]);
    NotListed(s, t, m);
    assert s.mutexes[m].waiters != [] ==> s.mutexes[m].waiters[0] in s.mutexes[m].waiters;
    forall n | n in s.mutexes && n != m ensures Untouched(n, s.mutexes[n], s.tasks, r.tasks) {
      GiveUntouched(s, t, m, n);
    }
    GiveSelf(s, t, m);
    Others(s, r, m);
  }

  lemma GivenFields(s: State, t: Task, m: MutexId, w: Task)
    requires t in s.tasks && m in s.mutexes && s.tasks[t].held > 0 && t !in s.mutexes[m].waiters
    requires forall u :: u in s.mutexes[m].waiters ==> u in s.tasks
    requires if s.mutexes[m].waiters == [] then w == t else w == s.mutexes[m].waiters[0]
    ensures var r := Given(s, t, m).tasks;
      && r.Keys == s.tasks.Keys && (forall u :: u in s.tasks && u != t && u != w ==> r[u] == s.tasks[u])
      && r[t] == Disinherit(s.tasks[t])
      && r[w].priority == if w == t then Disinherit(s.tasks[t]).priority else s.tasks[w].priority
  {
    if s.mutexes[m].waiters != [] {
      assert s.mutexes[m].waiters[0] in s.mutexes[m].waiters;
    }
  }

  lemma GiveUntouched(s: State, t: Task, m: MutexId, n: MutexId)
    requires Invariant(s) && Enabled(s, Give(t, m)) && s.tasks[t].held > 0 && n in s.mutexes && n != m
    ensures Untouched(n, s.mutexes[n], s.tasks, Given(s, t, m).tasks)
  {
    var x := s.mutexes[m];
    assert s.tasks[t].held == 1 ==> s.mutexes[n].holder != Some(t) by {
      if s.tasks[t].held == 1 { OnlyMutex(s, t, m, n); }
    }
    HolderIsBusyElsewhere(s, t, n);
    HolderIsBusyElsewhere(s, t, m);
    var w := if x.waiters == [] then t else x.waiters[0];
    hide Accounted, Bounded, Given;
    assert MutexAgrees(s.tasks, m, x) && MutexAgrees(s.tasks, n, s.mutexes[n]);
    assert x.waiters != [] ==> w in x.waiters;
    NotListed(s, w, n);
    hide ListAgrees;
    GivenFields(s, t, m, w);
    UntouchedBy(n, s.mutexes[n], s.tasks, Given(s, t, m).tasks, t, w);
  }

  lemma OnlyMutex(s: State, t: Task, m: MutexId, n: MutexId)
    requires Accounted(s) && t in s.tasks && m in s.mutexes && n in s.mutexes && n != m
    requires s.mutexes[m].holder == Some(t) && s.tasks[t].held == 1
    ensures s.mutexes[n].holder != Some(t)
  {
    HolderHolds(s, t, m);
    assert n in HeldBy(s.mutexes, t) <==> s.mutexes[n].holder == Some(t);
  }

  lemma GiveSelf(s: State, t: Task, m: MutexId)
    requires t in s.tasks && m in s.mutexes && s.tasks[t].held > 0
    requires MutexAgrees(s.tasks, m, s.mutexes[m]) && t !in s.mutexes[m].waiters
    ensures MutexAgrees(Given(s, t, m).tasks, m, Given(s, t, m).mutexes[m])
  {
    var r, w := Given(s, t, m), s.mutexes[m].waiters;
    if w != [] {
      assert w[0] in w;
      assert WillTry(r.tasks, w[0], m);
      forall u | u in w[1..] ensures u in w && u != w[0] && r.tasks[u] == s.tasks[u]
        && Priority(r.tasks, u) <= Priority(r.tasks, w[0]) {
        var i :| 0 <= i < |w| - 1 && w[1..][i] == u;
        assert w[i + 1] == u;
      }
    }
  }

  lemma TimeoutBounded(s: State, t: Task)
    requires Invariant(s) && Enabled(s, Timeout(t))
    ensures var r := TimedOut(s, t); forall n :: n in r.mutexes ==> MutexAgrees(r.tasks, n, r.mutexes[n])
  {
    hide Accounted;
    var r, m := TimedOut(s, t), s.tasks[t].call.id;
    forall n | n in s.mutexes && n != m ensures Untouched(n, s.mutexes[n], s.tasks, r.tasks) {
      NotListed(s, t, n);
      TaskStepUntouched(s, t, r.tasks[t], n);
    }
    assert MutexAgrees(s.tasks, m, s.mutexes[m]) && CallAgrees(s.tasks[t], t, s.mutexes);
    assert s.mutexes[m].holder != Some(t) by { if s.mutexes[m].holder == Some(t) { HolderHolds(s, t, m); } }
    TimeoutSelf(s, t);
    Others(s, r, m);
  }

  lemma TimeoutSelf(s: State, t: Task)
    requires t in s.tasks && s.tasks[t].call.InList? && s.tasks[t].call.id in s.mutexes
    requires var x := s.mutexes[s.tasks[t].call.id];
      x.holder != Some(t) && MutexAgrees(s.tasks, s.tasks[t].call.id, x)
    ensures MutexAgrees(TimedOut(s, t).tasks, s.tasks[t].call.id, TimedOut(s, t).mutexes[s.tasks[t].call.id])
  {
    var r, m := TimedOut(s, t), s.tasks[t].call.id;
    var x := s.mutexes[m];
    assert NoDup(x.waiters) && !WillTry(s.tasks, t, m);
    hide ListAgrees, Without, NoDup;
    RestAgrees(s.tasks, m, x.waiters, t, r.tasks[t]);
    if x.holder.Some? {
      RestDominated(s.tasks, x.waiters, t, r.tasks[t], x.holder.value);
    } else if x.waiters != [] {
      var u :| WillTry(s.tasks, u, m) && Dominates(s.tasks, u, x.waiters);
      RestDominated(s.tasks, x.waiters, t, r.tasks[t], u);
      assert WillTry(r.tasks, u, m);
    }
  }

  lemma RestAgrees(tasks: map<Task, Tcb>, m: MutexId, waiters: seq<Task>, t: Task, b: Tcb)
    requires ListAgrees(tasks, m, waiters)
    ensures ListAgrees(tasks[t := b], m, Without(waiters, t))
    ensures waiters == [] ==> Without(waiters, t) == []
  {
    WithoutMembers(waiters, t);
    WithoutOrder(tasks, waiters, t);
    hide Without, NoDup;
    var w, after := Without(waiters, t), tasks[t := b];
    forall i | 0 <= i < |w| ensures Priority(after, w[i]) == Priority(tasks, w[i]) {
      assert w[i] in w;
    }
  }

  lemma RestDominated(tasks: map<Task, Tcb>, waiters: seq<Task>, t: Task, b: Tcb, u: Task)
    requires NoDup(waiters) && Dominates(tasks, u, waiters) && u != t
    ensures Dominates(tasks[t := b], u, Without(waiters, t))
  {
    WithoutMembers(waiters, t);
    hide Without, NoDup;
  }

  lemma WithoutOrder(tasks: map<Task, Tcb>, waiters: seq<Task>, t: Task)
    requires forall i, j :: 0 <= i < j < |waiters| ==> Priority(tasks, waiters[i]) >= Priority(tasks, waiters[j])
    ensures var w := Without(waiters, t);
      forall i, j :: 0 <= i < j < |w| ==> Priority(tasks, w[i]) >= Priority(tasks, w[j])
  {
    hide Without, IndexOf;
    var w := Without(waiters, t);
    forall i, j | 0 <= i < j < |w| ensures Priority(tasks, w[i]) >= Priority(tasks, w[j]) {
      WithoutAt(waiters, t, i);
      WithoutAt(waiters, t, j);
    }
  }

  // ---- Calls ----

  predicate SameCall(a: Tcb, b: Tcb) {
    a.call == b.call && a.held == b.held && a.ready == b.ready
  }

  lemma CallsKept(s: State, r: State, m: MutexId)
    requires Invariant(s) && r.tasks.Keys == s.tasks.Keys && r.mutexes.Keys == s.mutexes.Keys
    requires m in s.mutexes && r.mutexes == s.mutexes[m := r.mutexes[m]]
    requires forall t :: t in s.mutexes[m].waiters ==>
      t in r.mutexes[m].waiters || (t in r.tasks && r.tasks[t].call.Retrying?)
    requires forall t :: t in r.tasks ==> SameCall(s.tasks[t], r.tasks[t]) || CallAgrees(r.tasks[t], t, r.mutexes)
    ensures forall t :: t in r.tasks ==> CallAgrees(r.tasks[t], t, r.mutexes)
  {
    hide Accounted, MutexAgrees;
    forall t | t in r.tasks ensures CallAgrees(r.tasks[t], t, r.mutexes) {
      assert CallAgrees(s.tasks[t], t, s.mutexes);
    }
  }

  lemma StepCalls(s: State, step: Step)
    requires Invariant(s) && Enabled(s, step) && Disciplined(s, step)
    ensures var r := Perform(s, step); forall t :: t in r.tasks ==> CallAgrees(r.tasks[t], t, r.mutexes)
  {
    hide Accounted, MutexAgrees, CallAgrees, Taken, Blocked, Left, Given, TimedOut;
    match step
    case Block(t, m) => BlockCalls(s, t, m);
    case Leave(t) => LeaveCalls(s, t);
    case Give(t, m) => HolderHolds(s, t, m); GiveCalls(s, t, m);
    case Timeout(t) => TimeoutCalls(s, t);
    case Sleep(_) => OtherCalls(s, step);
    case WakeUp(_) => OtherCalls(s, step);
    case SetPriority(_, _) => OtherCalls(s, step);
    case _ => RunningCalls(s, step);
  }

  lemma RunningCalls(s: State, step: Step)
    requires Invariant(s) && Enabled(s, step) && (step.Take? || step.TakeAgain? || step.GivePart? || step.SeeTaken?)
    ensures var r := Perform(s, step); forall t :: t in r.tasks ==> CallAgrees(r.tasks[t], t, r.mutexes)
  {
    hide Accounted, MutexAgrees;
    var m := if step.SeeTaken? then s.tasks[step.task].call.id else step.id;
    assert CallAgrees(s.tasks[step.task], step.task, s.mutexes);
    CallsKept(s, Perform(s, step), m);
  }

  lemma OtherCalls(s: State, step: Step)
    requires Invariant(s) && Enabled(s, step) && (step.Sleep? || step.WakeUp? || step.SetPriority?)
    ensures var r := Perform(s, step); forall t :: t in r.tasks ==> CallAgrees(r.tasks[t], t, r.mutexes)
  {
    hide Accounted, MutexAgrees;
    var r := Perform(s, step);
    forall t | t in r.tasks ensures CallAgrees(r.tasks[t], t, r.mutexes) {
      assert CallAgrees(s.tasks[t], t, s.mutexes);
    }
  }

  lemma BlockCalls(s: State, t: Task, m: MutexId)
    requires Invariant(s) && Enabled(s, Block(t, m)) && s.tasks[t].held == 0
    ensures var r := Blocked(s, t, m); forall u :: u in r.tasks ==> CallAgrees(r.tasks[u], u, r.mutexes)
  {
    hide Accounted, Bounded, WaitPosition, Blocked, Inherit, CallAgrees, NoDup, InsertAt;
    var r, x := Blocked(s, t, m), s.mutexes[m];
    TakeAccountsHolder(s, m);
    NotHolder(s, t, m);
    NotListed(s, t, m);
    assert NoDup(x.waiters) by { assert MutexAgrees(s.tasks, m, x); }
    hide MutexAgrees;
    BlockedFields(s, t, m, x.holder.value);
    BlockedCall(s, t, m, x.holder.value);
    forall u | u in r.tasks ensures SameCall(s.tasks[u], r.tasks[u]) || CallAgrees(r.tasks[u], u, r.mutexes) {
    }
    CallsKept(s, r, m);
  }

  lemma BlockedCall(s: State, t: Task, m: MutexId, h: Task)
    requires t in s.tasks && m in s.mutexes && s.mutexes[m].holder == Some(h) && h in s.tasks && h != t
      && s.tasks[t].held == 0
    requires NoDup(s.mutexes[m].waiters) && t !in s.mutexes[m].waiters
    ensures var r := Blocked(s, t, m);
      CallAgrees(r.tasks[t], t, r.mutexes) && forall u :: u in s.mutexes[m].waiters ==> u in r.mutexes[m].waiters
  {
    hide WaitPosition, Blocked, Inherit;
    BlockedFields(s, t, m, h);
    InsertAtMembers(s.mutexes[m].waiters, WaitPosition(s.tasks, s.mutexes[m].waiters, s.tasks[t].priority), t);
    hide InsertAt;
  }

  lemma LeaveCalls(s: State, t: Task)
    requires Invariant(s) && Enabled(s, Leave(t))
    ensures var r := Left(s, t); forall u :: u in r.tasks ==> CallAgrees(r.tasks[u], u, r.mutexes)
  {
    hide Accounted, MutexAgrees;
    assert CallAgrees(s.tasks[t], t, s.mutexes);
    CallsKept(s, Left(s, t), s.tasks[t].call.id);
  }

  lemma GiveCalls(s: State, t: Task, m: MutexId)
    requires Invariant(s) && Enabled(s, Give(t, m)) && s.tasks[t].held > 0
    ensures var r := Given(s, t, m); forall u :: u in r.tasks ==> CallAgrees(r.tasks[u], u, r.mutexes)
  {
    hide Accounted, Bounded;
    var r, w := Given(s, t, m), s.mutexes[m].waiters;
    assert MutexAgrees(s.tasks, m, s.mutexes[m]);
    NotListed(s, t, m);
    if w != [] {
      assert w[0] in w;
      assert forall u :: u in w ==> u == w[0] || u in w[1..];
    }
    CallsKept(s, r, m);
  }

  lemma TimeoutCalls(s: State, t: Task)
    requires Invariant(s) && Enabled(s, Timeout(t))
    ensures var r := TimedOut(s, t); forall u :: u in r.tasks ==> CallAgrees(r.tasks[u], u, r.mutexes)
  {
    hide Accounted, Bounded;
    var m := s.tasks[t].call.id;
    assert MutexAgrees(s.tasks, m, s.mutexes[m]) && CallAgrees(s.tasks[t], t, s.mutexes);
    WithoutMembers(s.mutexes[m].waiters, t);
    hide Without;
    CallsKept(s, TimedOut(s, t), m);
  }

  // ---- Setting a priority ----

  ghost predicate AllAgree(s: State) {
    forall m :: m in s.mutexes ==> MutexAgrees(s.tasks, m, s.mutexes[m])
  }

  /**
   vTaskPrioritySet on a task that is not in an event list keeps the bound exactly when it is safe.  A
   task leaving a take it gave up is always safe: it holds nothing and tries nothing.
   */
  lemma SetPriorityKeepsBoundIff(s: State, t: Task, p: nat)
    requires Invariant(s) && t in s.tasks && !s.tasks[t].call.InList?
    ensures AllAgree(Perform(s, SetPriority(t, p))) <==> SafePriority(s, t, p)
    ensures s.tasks[t].call.Leaving? ==> SafePriority(s, t, p)
  {
    var b, r := s.tasks[t], Perform(s, SetPriority(t, p));
    if b.base == b.priority && b.base != p {
      forall m | m in s.mutexes
        ensures MutexAgrees(r.tasks, m, r.mutexes[m]) <==> SafeFor(s, t, p, m)
      {
        SetPriorityOne(s, t, p, m);
      }
      SafeForAll(s, t, p);
    } else {
      assert Reprioritised(b, p).priority == b.priority;
      forall m | m in s.mutexes ensures MutexAgrees(r.tasks, m, r.mutexes[m]) {
        SamePriority(s, t, Reprioritised(b, p), m);
      }
    }
  }

  /** Safe as far as one mutex is concerned. */
  ghost predicate SafeFor(s: State, t: Task, p: nat, m: MutexId)
    requires t in s.tasks && m in s.mutexes
  {
    var x, c := s.mutexes[m], s.tasks[t].call;
    && (x.holder == Some(t) ==> forall w :: w in x.waiters ==> Priority(s.tasks, w) <= p)
    && (c.Retrying? && c.id == m ==> CanTry(s.tasks, m, x, t, p))
  }

  lemma SafeForAll(s: State, t: Task, p: nat)
    requires Invariant(s) && t in s.tasks && s.tasks[t].base == s.tasks[t].priority != p
    ensures SafePriority(s, t, p) <==> forall m :: m in s.mutexes ==> SafeFor(s, t, p, m)
    ensures s.tasks[t].call.Leaving? ==> forall m :: m in s.mutexes ==> SafeFor(s, t, p, m)
  {
    hide MutexAgrees, CanTry;
    if s.tasks[t].call.Leaving? {
      assert CallAgrees(s.tasks[t], t, s.mutexes);
      forall m | m in s.mutexes ensures SafeFor(s, t, p, m) {
        NotHolder(s, t, m);
      }
    }
    hide Accounted, CallAgrees;
    if SafePriority(s, t, p) {
      forall m | m in s.mutexes ensures SafeFor(s, t, p, m) {
      }
    }
    if forall m :: m in s.mutexes ==> SafeFor(s, t, p, m) {
      forall m, w | m in s.mutexes && s.mutexes[m].holder == Some(t) && w in s.mutexes[m].waiters
        ensures Priority(s.tasks, w) <= p
      {
        assert SafeFor(s, t, p, m);
      }
      var c := s.tasks[t].call;
      assert c.Retrying? && c.id in s.mutexes ==> SafeFor(s, t, p, c.id);
    }
  }

  /** Bases and calls do not matter to a mutex as long as priorities stay. */
  lemma SamePriority(s: State, t: Task, b: Tcb, m: MutexId)
    requires Invariant(s) && t in s.tasks && m in s.mutexes && !s.tasks[t].call.InList?
    requires b == s.tasks[t].(base := b.base)
    ensures MutexAgrees(s.tasks[t := b], m, s.mutexes[m])
  {
    hide CallAgrees;
    TakeAccountsHolder(s, m);
    hide Accounted;
    assert MutexAgrees(s.tasks, m, s.mutexes[m]);
    Frame(m, s.mutexes[m], s.tasks, s.tasks[t := b]);
  }

  lemma SetPriorityOne(s: State, t: Task, p: nat, m: MutexId)
    requires Invariant(s) && t in s.tasks && m in s.mutexes && !s.tasks[t].call.InList?
    requires s.tasks[t].base == s.tasks[t].priority != p
    ensures MutexAgrees(s.tasks[t := Reprioritised(s.tasks[t], p)], m, s.mutexes[m]) <==> SafeFor(s, t, p, m)
  {
    var x, b := s.mutexes[m], s.tasks[t].(priority := p, base := p);
    assert Reprioritised(s.tasks[t], p) == b;
    assert MutexAgrees(s.tasks, m, x) && CallAgrees(s.tasks[t], t, s.mutexes);
    TakeAccountsHolder(s, m);
    if s.tasks[t].held == 0 {
      NotHolder(s, t, m);
    }
    hide Accounted;
    SetListed(s.tasks, m, x, t, b);
    if x.holder.Some? {
      SetHeld(s.tasks, m, x, t, b);
    } else {
      SetFree(s.tasks, m, x, t, b);
    }
  }

  /** The event list itself is not affected. */
  lemma SetListed(tasks: map<Task, Tcb>, m: MutexId, x: Mx, t: Task, b: Tcb)
    requires ListAgrees(tasks, m, x.waiters) && t in tasks && !tasks[t].call.InList?
    ensures t !in x.waiters && ListAgrees(tasks[t := b], m, x.waiters)
    ensures forall w :: w in x.waiters ==> Priority(tasks[t := b], w) == Priority(tasks, w)
  {
    hide NoDup;
  }

  lemma SetHeld(tasks: map<Task, Tcb>, m: MutexId, x: Mx, t: Task, b: Tcb)
    requires x.holder.Some? && x.holder.value in tasks && Bounded(tasks, m, x) && t in tasks && t !in x.waiters
    requires forall w :: w in x.waiters ==> Priority(tasks[t := b], w) == Priority(tasks, w)
    ensures Bounded(tasks[t := b], m, x) <==>
            (x.holder == Some(t) ==> forall w :: w in x.waiters ==> Priority(tasks, w) <= b.priority)
  {
  }

  lemma SetFree(tasks: map<Task, Tcb>, m: MutexId, x: Mx, t: Task, b: Tcb)
    requires x.holder.None? && Bounded(tasks, m, x) && t in tasks && t !in x.waiters
    requires b == tasks[t].(priority := b.priority, base := b.base) && (tasks[t].call.Retrying? ==> tasks[t].ready)
    requires forall w :: w in x.waiters ==> Priority(tasks[t := b], w) == Priority(tasks, w)
    ensures Bounded(tasks[t := b], m, x) <==>
            (tasks[t].call.Retrying? && tasks[t].call.id == m ==> CanTry(tasks, m, x, t, b.priority))
  {
    var after := tasks[t := b];
    if Bounded(after, m, x) && x.waiters != [] {
      var u :| WillTry(after, u, m) && Dominates(after, u, x.waiters);
      if u != t {
        assert WillTry(tasks, u, m) && Dominates(tasks, u, x.waiters);
      }
    }
    if WillTry(tasks, t, m) && CanTry(tasks, m, x, t, b.priority) && x.waiters != [] {
      if OtherDominates(tasks, m, x.waiters, t) {
        var u :| u != t && WillTry(tasks, u, m) && Dominates(tasks, u, x.waiters);
        assert WillTry(after, u, m) && Dominates(after, u, x.waiters);
      } else {
        assert WillTry(after, t, m) && Dominates(after, t, x.waiters);
      }
    }
    if !WillTry(tasks, t, m) && x.waiters != [] {
      var u :| WillTry(tasks, u, m) && Dominates(tasks, u, x.waiters);
      assert WillTry(after, u, m) && Dominates(after, u, x.waiters);
    }
  }

  /** A holder of priority 5 with a waiter of priority 3, set to 1, ends up below its waiter. */
  lemma SetPriorityInverts()
    ensures var s := HolderAboveWaiter();
      Invariant(s) && Enabled(s, SetPriority(0, 1)) && !AllAgree(Perform(s, SetPriority(0, 1)))
  {
    var s := HolderAboveWaiter();
    assert HeldBy(s.mutexes, 0) == {0};
    assert HeldBy(s.mutexes, 1) == {};
    assert MutexAgrees(s.tasks, 0, s.mutexes[0]);
    assert 0 in s.mutexes && 1 in s.mutexes[0].waiters;
    SetPriorityKeepsBoundIff(s, 0, 1);
  }

  function HolderAboveWaiter(): State {
    State(map[0 := Tcb(5, 5, 1, true, NoCall), 1 := Tcb(3, 3, 0, false, InList(0, false))],
          map[0 := Mx(0, Some(0), [1], false, 0)])
  }

  /**
   A task of priority 5 woken for a mutex on which one of priority 3 still waits, set to 1 before it
   runs: it takes the mutex, and its waiter is above it.
   */
  lemma SetPriorityOnWokenInverts()
    ensures var s := WokenAboveWaiter();
      && Invariant(s) && CoversWaiters(s, 0, 1) && Enabled(s, SetPriority(0, 1))
      && var r := Perform(s, SetPriority(0, 1));
         && Accounted(r) && Enabled(r, Take(0, 0)) && Disciplined(r, Take(0, 0))
         && var q := Perform(r, Take(0, 0));
            && q.mutexes[0].holder == Some(0) && q.mutexes[0].waiters == [1]
            && Priority(q.tasks, 0) < Priority(q.tasks, 1)
  {
    WokenAboveWaiterInvariant();
    var s := WokenAboveWaiter();
    StepAccounts(s, SetPriority(0, 1));
    hide Accounted, MutexAgrees, CallAgrees;
  }

  lemma WokenAboveWaiterInvariant()
    ensures Invariant(WokenAboveWaiter())
  {
    var s := WokenAboveWaiter();
    assert HeldBy(s.mutexes, 0) == {};
    assert HeldBy(s.mutexes, 1) == {};
    assert WillTry(s.tasks, 0, 0) && Dominates(s.tasks, 0, [1]);
    assert MutexAgrees(s.tasks, 0, s.mutexes[0]);
  }

  function WokenAboveWaiter(): State {
    State(map[0 := Tcb(5, 5, 0, true, Retrying(0, false)), 1 := Tcb(3, 3, 0, false, InList(0, false))],
          map[0 := Mx(1, None, [1], false, 0)])
  }

  // ---- Every run ----

  lemma ReadinessBounded(s: State, t: Task, ready: bool)
    requires Invariant(s) && t in s.tasks && s.tasks[t].call == NoCall
    ensures AllAgree(Updated(s, t, s.tasks[t].(ready := ready)))
  {
    hide ListAgrees, Bounded;
    var b := s.tasks[t].(ready := ready);
    forall m | m in s.mutexes ensures MutexAgrees(s.tasks[t := b], m, s.mutexes[m]) {
      NotListed(s, t, m);
      TakeAccountsHolder(s, m);
      TaskStepUntouched(s, t, b, m);
      Frame(m, s.mutexes[m], s.tasks, s.tasks[t := b]);
    }
  }

  lemma DepthBounded(s: State, m: MutexId, depth: nat)
    requires Invariant(s) && m in s.mutexes
    ensures AllAgree(With(s, m, s.mutexes[m].(depth := depth)))
  {
    hide Accounted, ListAgrees;
    forall n | n in s.mutexes
      ensures MutexAgrees(s.tasks, n, if n == m then s.mutexes[m].(depth := depth) else s.mutexes[n])
    {
      assert MutexAgrees(s.tasks, n, s.mutexes[n]);
    }
  }

  lemma StepKeeps(s: State, step: Step)
    requires Invariant(s) && Enabled(s, step) && Disciplined(s, step)
    ensures Invariant(Perform(s, step))
  {
    StepAccounts(s, step);
    StepCalls(s, step);
    hide Accounted, MutexAgrees, CallAgrees, Taken, Blocked, Left, Given, TimedOut;
    match step
    case Take(t, m) => TakeBounded(s, t, m);
    case Block(t, m) => BlockBounded(s, t, m);
    case SeeTaken(t) => SeeTakenBounded(s, t);
    case Leave(t) => LeaveBounded(s, t);
    case Give(t, m) => HolderHolds(s, t, m); GiveBounded(s, t, m);
    case Timeout(t) => TimeoutBounded(s, t);
    case SetPriority(t, p) => SetPriorityKeepsBoundIff(s, t, p);
    case Sleep(t) => ReadinessBounded(s, t, false);
    case WakeUp(t) => ReadinessBounded(s, t, true);
    case TakeAgain(t, m) => DepthBounded(s, m, s.mutexes[m].depth + 1);
    case GivePart(t, m) => DepthBounded(s, m, s.mutexes[m].depth - 1);
  }

  ghost predicate Possible(s: State, steps: seq<Step>)
    requires Accounted(s)
    decreases |steps|
  {
    steps == [] ||
    (Enabled(s, steps[0]) && (StepAccounts(s, steps[0]); Possible(Perform(s, steps[0]), steps[1..])))
  }

  /** Accounting holds in every run, whatever priorities are set. */
  ghost function Run(s: State, steps: seq<Step>): (r: State)
    requires Accounted(s) && Possible(s, steps)
    ensures Accounted(r)
    decreases |steps|
  {
    if steps == [] then s else
      StepAccounts(s, steps[0]);
      Run(Perform(s, steps[0]), steps[1..])
  }

  ghost predicate AllDisciplined(s: State, steps: seq<Step>)
    requires Accounted(s) && Possible(s, steps)
    decreases |steps|
  {
    steps == [] ||
    (Disciplined(s, steps[0]) && (StepAccounts(s, steps[0]); AllDisciplined(Perform(s, steps[0]), steps[1..])))
  }

  lemma {:induction false} RunKeeps(s: State, steps: seq<Step>)
    requires Invariant(s) && Possible(s, steps) && AllDisciplined(s, steps)
    ensures Invariant(Run(s, steps))
    decreases |steps|
  {
    if steps != [] {
      StepKeeps(s, steps[0]);
      hide Accounted, MutexAgrees, CallAgrees, Perform, Enabled, Disciplined;
      RunKeeps(Perform(s, steps[0]), steps[1..]);
    }
  }

  /** Tasks and free mutexes as they are created. */
  ghost predicate Initial(s: State) {
    && (forall t :: t in s.tasks ==>
          s.tasks[t].priority == s.tasks[t].base && s.tasks[t].held == 0 && s.tasks[t].call == NoCall)
    && (forall m :: m in s.mutexes ==> s.mutexes[m] == Mx(1, None, [], s.mutexes[m].recursive, 0))
  }

  lemma InitialInvariant(s: State)
    requires Initial(s)
    ensures Invariant(s)
  {
    forall t | t in s.tasks ensures s.tasks[t].held == |HeldBy(s.mutexes, t)| {
      assert HeldBy(s.mutexes, t) == {};
    }
  }

  /** In every reachable state a mutex holder's priority is at least that of every task waiting for it. */
  lemma InversionIsBounded(s: State, steps: seq<Step>, m: MutexId, w: Task)
    requires Initial(s)
    requires (InitialInvariant(s); Possible(s, steps) && AllDisciplined(s, steps))
    ensures var r := (InitialInvariant(s); Run(s, steps));
      m in r.mutexes && r.mutexes[m].holder.Some? && w in r.mutexes[m].waiters ==>
        Priority(r.tasks, w) <= Priority(r.tasks, r.mutexes[m].holder.value)
  {
    InitialInvariant(s);
    RunKeeps(s, steps);
    var r := Run(s, steps);
    assert m in r.mutexes ==> MutexAgrees(r.tasks, m, r.mutexes[m]);
  }
}
