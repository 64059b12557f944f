/** Where priorities come from, over whole runs, and what a take that times out leaves behind. */
module MutexPriorities {
  import opened SeqLists
  import opened Mutex

  // ---- No task has a priority that was not handed to it ----

  function PrioritiesOf(tasks: map<Task, Tcb>, waiters: seq<Task>): set<nat> {
    set i | 0 <= i < |waiters| :: Priority(tasks, waiters[i])
  }

  /**
   The priorities a step can hand to t: one set by vTaskPrioritySet, that of a task that blocks on a mutex t
   holds, and, when another gives up waiting for it, those of the tasks that go on waiting.
   */
  function Handed(s: State, step: Step, t: Task): set<nat> {
    match step
    case SetPriority(u, p) => if u == t then {p} else {}
    case Block(u, m) => if m in s.mutexes && s.mutexes[m].holder == Some(t) then {Priority(s.tasks, u)} else {}
    case Leave(u) =>
      if u in s.tasks && s.tasks[u].call.Leaving? && s.tasks[u].call.id in s.mutexes
         && s.mutexes[s.tasks[u].call.id].holder == Some(t)
      then PrioritiesOf(s.tasks, s.mutexes[s.tasks[u].call.id].waiters) else {}
    case _ => {}
  }

  /** After every step a task's priority is its old one, its old base, or one handed to it. */
  lemma StepHands(s: State, step: Step, t: Task)
    requires Accounted(s) && Enabled(s, step) && t in s.tasks
    ensures var r := Perform(s, step);
      && t in r.tasks
      && r.tasks[t].priority in {s.tasks[t].priority, s.tasks[t].base} + Handed(s, step, t)
      && (r.tasks[t].base == s.tasks[t].base || step == SetPriority(t, r.tasks[t].base))
  {
    hide Accounted, HeldBy;
    match step
    case Leave(u) => LeaveHands(s, u, t);
    case Block(u, m) => BlockHands(s, u, m, t);
    case Give(u, m) => HolderHolds(s, u, m);
    case _ =>
  }

  lemma LeaveHands(s: State, u: Task, t: Task)
    requires Accounted(s) && Enabled(s, Leave(u)) && t in s.tasks
    ensures var r := Left(s, u);
      && t in r.tasks && r.tasks[t].base == s.tasks[t].base
      && r.tasks[t].priority in {s.tasks[t].priority, s.tasks[t].base} + Handed(s, Leave(u), t)
  {
    hide Accounted;
    var w := s.mutexes[s.tasks[u].call.id].waiters;
    if w != [] {
      assert Priority(s.tasks, w[0]) in PrioritiesOf(s.tasks, w);
    }
    hide PrioritiesOf;
  }

  lemma BlockHands(s: State, u: Task, m: MutexId, t: Task)
    requires Accounted(s) && Enabled(s, Block(u, m)) && t in s.tasks
    ensures var r := Blocked(s, u, m);
      && t in r.tasks && r.tasks[t].base == s.tasks[t].base
      && r.tasks[t].priority in {s.tasks[t].priority, s.tasks[t].base} + Handed(s, Block(u, m), t)
  {
    hide Accounted, WaitPosition, InsertAt;
  }

  /** All the priorities handed to t in a run. */
  ghost function AllHanded(s: State, steps: seq<Step>, t: Task): set<nat>
    requires Accounted(s) && Possible(s, steps)
    decreases |steps|
  {
    if steps == [] then {} else
      StepAccounts(s, steps[0]);
      Handed(s, steps[0], t) + AllHanded(Perform(s, steps[0]), steps[1..], t)
  }

  /**
   In every run, whatever is nested, scheduled or set: a task's priority is the one or the base it began with
   or one handed to it, so it is no higher than the highest of these.
   */
  lemma {:induction false} PrioritiesAreHanded(s: State, steps: seq<Step>, t: Task)
    requires Accounted(s) && Possible(s, steps) && t in s.tasks
    ensures var r := Run(s, steps);
      && t in r.tasks
      && r.tasks[t].priority in {s.tasks[t].priority, s.tasks[t].base} + AllHanded(s, steps, t)
      && r.tasks[t].base in {s.tasks[t].base} + AllHanded(s, steps, t)
    decreases |steps|
  {
    if steps != [] {
      StepAccounts(s, steps[0]);
      StepHands(s, steps[0], t);
      assert steps[0] == SetPriority(t, Perform(s, steps[0]).tasks[t].base) ==>
        Perform(s, steps[0]).tasks[t].base in Handed(s, steps[0], t);
      hide Accounted, Perform, Enabled, Handed;
      PrioritiesAreHanded(Perform(s, steps[0]), steps[1..], t);
    }
  }

  // ---- Disciplined runs: only blocking raises ----

  /** Bases set and priorities of tasks that block on a mutex t holds, at the moment they do, are at most p. */
  ghost predicate HandedAtMost(s: State, steps: seq<Step>, t: Task, p: nat)
    requires Accounted(s) && Possible(s, steps)
    decreases |steps|
  {
    steps == [] ||
    (StepAccounts(s, steps[0]);
     && (!steps[0].Leave? ==> forall q :: q in Handed(s, steps[0], t) ==> q <= p)
     && HandedAtMost(Perform(s, steps[0]), steps[1..], t, p))
  }

  /** A waiter that gives up does not raise the holder: it is as high as the remaining waiters already. */
  lemma LeaveRaisesNone(s: State, u: Task, t: Task)
    requires Invariant(s) && Enabled(s, Leave(u)) && t in s.tasks
    ensures var r := Left(s, u);
      t in r.tasks && (r.tasks[t].priority <= s.tasks[t].priority || r.tasks[t].priority == s.tasks[t].base)
  {
    LeaveExact(s, u);
    var m := s.tasks[u].call.id;
    assert MutexAgrees(s.tasks, m, s.mutexes[m]);
    hide Invariant, Left, ListAgrees;
  }

  /**
   In every disciplined run a task's priority never exceeds the highest of its bases and of the priorities
   that tasks had when they blocked on a mutex it held.
   */
  lemma {:induction false} RaisedByBlockingOnly(s: State, steps: seq<Step>, t: Task, p: nat)
    requires Invariant(s) && Possible(s, steps) && AllDisciplined(s, steps) && t in s.tasks
    requires s.tasks[t].priority <= p && s.tasks[t].base <= p && HandedAtMost(s, steps, t, p)
    ensures var r := Run(s, steps); t in r.tasks && r.tasks[t].priority <= p && r.tasks[t].base <= p
    decreases |steps|
  {
    if steps != [] {
      StepKeeps(s, steps[0]);
      StepHands(s, steps[0], t);
      if steps[0].Leave? {
        LeaveRaisesNone(s, steps[0].task, t);
      }
      assert steps[0] == SetPriority(t, Perform(s, steps[0]).tasks[t].base) ==>
        Perform(s, steps[0]).tasks[t].base in Handed(s, steps[0], t);
      assert Perform(s, steps[0]).tasks[t].priority <= p && Perform(s, steps[0]).tasks[t].base <= p;
      hide Accounted, Invariant, Perform, Enabled, Handed, Disciplined;
      RaisedByBlockingOnly(Perform(s, steps[0]), steps[1..], t, p);
    }
  }

  /**
   Setting the priority of a task in an event list is what breaks that: a holder of priority 1 on whose mutex a
   task of priority 3 blocked is raised to 9 when that task is set to 9 and another waiter gives up.
   */
  lemma SettingAWaiterRaisesTheHolder()
    ensures var s := TwoWaiters();
      && Accounted(s) && Enabled(s, SetPriority(1, 9))
      && var r := Perform(s, SetPriority(1, 9));
         && Accounted(r) && Enabled(r, Leave(2))
         && Perform(r, Leave(2)).tasks[0].priority == 9 && Perform(r, Leave(2)).tasks[0].base == 1
  {
    var s := TwoWaiters();
    assert HeldBy(s.mutexes, 0) == {0};
    assert HeldBy(s.mutexes, 1) == {};
    assert HeldBy(s.mutexes, 2) == {};
    StepAccounts(s, SetPriority(1, 9));
    hide Accounted;
  }

  function TwoWaiters(): State {
    State(map[0 := Tcb(3, 1, 1, true, NoCall), 1 := Tcb(3, 3, 0, false, InList(0, true)),
              2 := Tcb(2, 2, 0, true, Leaving(0, true))],
          map[0 := Mx(0, Some(0), [1], false, 0)])
  }

  // ---- What a take that times out leaves behind ----

  /** The priority of the holder once the take has failed. */
  ghost predicate AfterFailedTake(s: State, t: Task, m: MutexId, priority: nat)
    requires t in s.tasks && m in s.mutexes && s.mutexes[m].holder.Some? && s.mutexes[m].holder.value in s.tasks
  {
    var h, p := s.tasks[s.mutexes[m].holder.value], s.tasks[t].priority;
    if p <= h.priority && p <= h.base then priority == h.priority
    else if h.held == 1 then HighestOf(s.tasks, h.base, s.mutexes[m].waiters, priority)
    else priority == if h.priority < p then p else h.priority
  }

  /**
   A task blocks on a mutex, times out and gives up, with nothing else happening: everything is as before but
   for the holder's priority.  A holder of this mutex alone is back at the highest of its base and the other
   waiters; a holder of more keeps what it inherited until it has given all of them back.
   */
  lemma FailedTakeLeaves(s: State, t: Task, m: MutexId)
    requires Invariant(s) && Enabled(s, Block(t, m)) && s.tasks[t].held == 0 && s.tasks[t].call == NoCall
    ensures s.mutexes[m].holder.Some? && s.mutexes[m].holder.value in s.tasks
    ensures var s1 := Perform(s, Block(t, m));
      && Accounted(s1) && Enabled(s1, Timeout(t))
      && var s2 := Perform(s1, Timeout(t));
         && Accounted(s2) && Enabled(s2, SeeTaken(t))
         && var s3 := Perform(s2, SeeTaken(t));
            && Accounted(s3) && Enabled(s3, Leave(t))
            && var s4 := Perform(s3, Leave(t));
               var h := s.mutexes[m].holder.value;
               && h in s4.tasks && AfterFailedTake(s, t, m, s4.tasks[h].priority)
               && s4 == s.(tasks := s.tasks[h := s.tasks[h].(priority := s4.tasks[h].priority)])
  {
    hide Invariant, Accounted, Perform, Enabled, AfterFailedTake, Raised, Below, LoweredTo;
    BlockThenTimeout(s, t, m);
    var s2 := Perform(Perform(s, Block(t, m)), Timeout(t));
    SeeTakenFacts(s2, t, m);
    var s3 := Perform(s2, SeeTaken(t));
    LeaveFacts(s3, t, m);
    var s4, h := Perform(s3, Leave(t)), s.mutexes[m].holder.value;
    FailedTakePriority(s, s3, s4, t, m, h);
    assert s4.tasks == s.tasks[h := s.tasks[h].(priority := s4.tasks[h].priority)];
  }

  /** The holder after t has blocked, and the call t is in. */
  function Raised(h: Tcb, p: nat): Tcb {
    h.(priority := if h.priority < p then p else h.priority)
  }

  function Below(h: Tcb, p: nat): bool {
    h.base < p || h.priority < p
  }

  lemma BlockFacts(s: State, t: Task, m: MutexId)
    requires Invariant(s) && Enabled(s, Block(t, m)) && s.tasks[t].held == 0
    ensures t in s.tasks && s.tasks[t].ready && m in s.mutexes && s.mutexes[m].count == 0
    ensures s.mutexes[m].holder.Some? && s.mutexes[m].holder.value in s.tasks && s.mutexes[m].holder.value != t
    ensures t !in s.mutexes[m].waiters && s.mutexes[m].holder.value !in s.mutexes[m].waiters
    ensures Accounted(s) && Invariant(Perform(s, Block(t, m)))
    ensures var r, h, p, x := Perform(s, Block(t, m)), s.mutexes[m].holder.value, s.tasks[t].priority, s.mutexes[m];
      && r.tasks == s.tasks[h := Raised(s.tasks[h], p)]
                           [t := s.tasks[t].(ready := false, call := InList(m, Below(s.tasks[h], p)))]
      && r.mutexes == s.mutexes[m := x.(waiters := InsertAt(x.waiters, WaitPosition(s.tasks, x.waiters, p), t))]
  {
    hide Blocked, WaitPosition, InsertAt;
    BlockBounded(s, t, m);
    StepKeeps(s, Block(t, m));
    TakeAccountsHolder(s, m);
    var h := s.mutexes[m].holder.value;
    BlockedFields(s, t, m, h);
    HolderHolds(s, h, m);
    NotListed(s, t, m);
    HolderIsBusyElsewhere(s, h, m);
  }

  lemma BlockThenTimeout(s: State, t: Task, m: MutexId)
    requires Invariant(s) && Enabled(s, Block(t, m)) && s.tasks[t].held == 0
    ensures t in s.tasks && s.tasks[t].ready && m in s.mutexes && s.mutexes[m].count == 0
    ensures s.mutexes[m].holder.Some? && s.mutexes[m].holder.value in s.tasks && s.mutexes[m].holder.value != t
    ensures t !in s.mutexes[m].waiters && s.mutexes[m].holder.value !in s.mutexes[m].waiters
    ensures Accounted(s)
    ensures var s1, h, p := Perform(s, Block(t, m)), s.mutexes[m].holder.value, s.tasks[t].priority;
      && Accounted(s1) && Enabled(s1, Timeout(t))
      && var s2 := Perform(s1, Timeout(t));
         && Invariant(s2) && s2.mutexes == s.mutexes
         && s2.tasks == s.tasks[h := Raised(s.tasks[h], p)]
                               [t := s.tasks[t].(call := Retrying(m, Below(s.tasks[h], p)))]
  {
    hide Invariant, Accounted, Perform, Enabled, Raised, Below, Without, InsertAt, WaitPosition;
    BlockFacts(s, t, m);
    TimeoutFacts(Perform(s, Block(t, m)), t, m);
    UndoneList(s, t, m);
    assert Perform(Perform(s, Block(t, m)), Timeout(t)).mutexes == s.mutexes;
  }

  lemma TimeoutFacts(s: State, t: Task, m: MutexId)
    requires Invariant(s) && t in s.tasks && s.tasks[t].call.InList? && s.tasks[t].call.id == m && m in s.mutexes
    ensures Accounted(s) && Enabled(s, Timeout(t)) && Invariant(Perform(s, Timeout(t)))
    ensures var r, b := Perform(s, Timeout(t)), s.tasks[t];
      && r.tasks == s.tasks[t := b.(ready := true, call := Retrying(m, b.call.inherited))]
      && r.mutexes == s.mutexes[m := s.mutexes[m].(waiters := Without(s.mutexes[m].waiters, t))]
  {
    hide Without;
    StepKeeps(s, Timeout(t));
  }

  /** Taking t out of the list again leaves it as it was. */
  lemma UndoneList(s: State, t: Task, m: MutexId)
    requires m in s.mutexes && t in s.tasks && t !in s.mutexes[m].waiters
    ensures var x := s.mutexes[m];
      Without(InsertAt(x.waiters, WaitPosition(s.tasks, x.waiters, s.tasks[t].priority), t), t) == x.waiters
  {
    hide WaitPosition, Without;
    WithoutInserted(s.mutexes[m].waiters, WaitPosition(s.tasks, s.mutexes[m].waiters, s.tasks[t].priority), t);
  }

  lemma SeeTakenFacts(s: State, t: Task, m: MutexId)
    requires Invariant(s) && t in s.tasks && s.tasks[t].ready && s.tasks[t].call.Retrying? && s.tasks[t].call.id == m
    requires m in s.mutexes && s.mutexes[m].count == 0
    ensures Accounted(s) && Enabled(s, SeeTaken(t)) && Invariant(Perform(s, SeeTaken(t)))
    ensures Perform(s, SeeTaken(t)) == Updated(s, t, s.tasks[t].(call := Leaving(m, s.tasks[t].call.inherited)))
  {
    StepKeeps(s, SeeTaken(t));
  }

  lemma LeaveFacts(s: State, t: Task, m: MutexId)
    requires Invariant(s) && t in s.tasks && s.tasks[t].ready && s.tasks[t].call.Leaving? && s.tasks[t].call.id == m
    requires m in s.mutexes && s.mutexes[m].holder.Some?
    ensures Accounted(s) && Enabled(s, Leave(t))
    ensures var r, h := Perform(s, Leave(t)), s.mutexes[m].holder.value;
      && r.mutexes == s.mutexes && r.tasks.Keys == s.tasks.Keys
      && (forall u :: u in s.tasks && u != t && u != h ==> r.tasks[u] == s.tasks[u])
      && r.tasks[t] == s.tasks[t].(call := NoCall)
      && LoweredTo(s, r, s.mutexes[m], s.tasks[t].call.inherited)
  {
    LeaveExact(s, t);
    LeftMutexes(s, t);
  }

  lemma LeftMutexes(s: State, t: Task)
    requires t in s.tasks && s.tasks[t].call.Leaving? && s.tasks[t].call.id in s.mutexes
    ensures Left(s, t).mutexes == s.mutexes && Left(s, t).tasks.Keys == s.tasks.Keys
  {
  }

  lemma FailedTakePriority(s: State, s3: State, s4: State, t: Task, m: MutexId, h: Task)
    requires t in s.tasks && m in s.mutexes && s.mutexes[m].holder == Some(h) && h in s.tasks && h != t
    requires var b, p := s.tasks[h], s.tasks[t].priority;
      && s3.tasks == s.tasks[h := Raised(b, p)]
                            [t := s.tasks[t].(call := Leaving(m, Below(b, p)))]
      && s3.mutexes == s.mutexes && LoweredTo(s3, s4, s.mutexes[m], Below(b, p))
    requires t !in s.mutexes[m].waiters && h !in s.mutexes[m].waiters
    ensures h in s4.tasks && AfterFailedTake(s, t, m, s4.tasks[h].priority)
    ensures s4.tasks[h] == s.tasks[h].(priority := s4.tasks[h].priority)
  {
    var w := s.mutexes[m].waiters;
    forall u | u in w ensures Priority(s3.tasks, u) == Priority(s.tasks, u) {
    }
  }

  // ---- Setting a priority ----

  /**
   vTaskPrioritySet takes effect at once unless the task is using an inherited priority, and then as soon as
   it has given back its last mutex.
   */
  lemma PrioritySetTakesEffect(s: State, t: Task, p: nat, m: MutexId)
    requires Accounted(s) && Enabled(s, SetPriority(t, p))
    ensures var r := Perform(s, SetPriority(t, p));
      && r.tasks[t].base == p
      && r.tasks[t].priority == (if s.tasks[t].base == s.tasks[t].priority then p else s.tasks[t].priority)
      && Accounted(r)
      && (s.tasks[t].held == 1 && Enabled(r, Give(t, m)) ==> Perform(r, Give(t, m)).tasks[t].priority == p)
  {
    StepAccounts(s, SetPriority(t, p));
    var r := Perform(s, SetPriority(t, p));
    if s.tasks[t].held == 1 && Enabled(r, Give(t, m)) {
      HolderHolds(r, t, m);
      hide Accounted;
      if r.mutexes[m].waiters != [] && r.mutexes[m].waiters[0] in r.tasks {
        assert Given(r, t, m).tasks[t].priority == Disinherit(r.tasks[t]).priority;
      }
    }
  }

  // ---- Giving back ----

  /** Taking a free mutex and giving it back changes nothing. */
  lemma TakeGiveRestores(s: State, t: Task, m: MutexId)
    requires Accounted(s) && Enabled(s, Take(t, m)) && s.tasks[t].call == NoCall && s.mutexes[m].waiters == []
    ensures var r := Perform(s, Take(t, m));
      Accounted(r) && Enabled(r, Give(t, m)) && Perform(r, Give(t, m)) == s
  {
    StepAccounts(s, Take(t, m));
    assert MutexCounted(s.mutexes[m], s.tasks.Keys);
  }

  /** A recursive mutex taken again must be given once more: one part of that gives the state from before. */
  lemma TakenAgainGivenInPart(s: State, t: Task, m: MutexId)
    requires Accounted(s) && Enabled(s, TakeAgain(t, m))
    ensures var r := Perform(s, TakeAgain(t, m));
      Accounted(r) && !Enabled(r, Give(t, m)) && Enabled(r, GivePart(t, m)) && Perform(r, GivePart(t, m)) == s
  {
    StepAccounts(s, TakeAgain(t, m));
    assert MutexCounted(s.mutexes[m], s.tasks.Keys);
  }
}
