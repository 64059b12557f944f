/** The mutex operations of queue.c and tasks.c, updating task control blocks and mutexes in place. */
module MutexMachine {
  import opened SeqLists
  import M = Mutex

  type Task = M.Task
  type MutexId = M.MutexId

  class Machine {
    var tasks: map<Task, M.Tcb>
    var mutexes: map<MutexId, M.Mx>

    function View(): M.State
      reads this
    {
      M.State(tasks, mutexes)
    }

    constructor (tasks: map<Task, M.Tcb>, mutexes: map<MutexId, M.Mx>)
      ensures View() == M.State(tasks, mutexes)
    {
      this.tasks, this.mutexes := tasks, mutexes;
    }

    /** xTaskPriorityInherit on behalf of a task of the given priority */
    method PriorityInherit(holder: Task, priority: nat) returns (occurred: bool)
      requires holder in tasks
      modifies this`tasks
      ensures tasks == old(tasks)[holder := M.Inherit(old(tasks)[holder], priority).0]
      ensures occurred == M.Inherit(old(tasks)[holder], priority).1
    {
      occurred := false;
      if tasks[holder].priority < priority {
        tasks := tasks[holder := tasks[holder].(priority := priority)];
        occurred := true;
      } else if tasks[holder].base < priority {
        occurred := true;
      }
    }

    /** xTaskPriorityDisinherit; the result asks for a context switch. */
    method PriorityDisinherit(t: Task) returns (lowered: bool)
      requires t in tasks && tasks[t].held > 0
      modifies this`tasks
      ensures tasks == old(tasks)[t := M.Disinherit(old(tasks)[t])]
      ensures lowered <==> tasks[t].priority != old(tasks)[t].priority
    {
      lowered := false;
      tasks := tasks[t := tasks[t].(held := tasks[t].held - 1)];
      if tasks[t].priority != tasks[t].base {
        if tasks[t].held == 0 {
          tasks := tasks[t := tasks[t].(priority := tasks[t].base)];
          lowered := true;
        }
      }
    }

    /** vTaskPriorityDisinheritAfterTimeout */
    method PriorityDisinheritAfterTimeout(holder: Task, highestWaiting: nat)
      requires holder in tasks
      modifies this`tasks
      ensures tasks == old(tasks)[holder := M.DisinheritAfterTimeout(old(tasks)[holder], highestWaiting)]
    {
      var use := tasks[holder].base;
      if tasks[holder].base < highestWaiting {
        use := highestWaiting;
      }
      if tasks[holder].priority != use {
        if tasks[holder].held == 1 {
          tasks := tasks[holder := tasks[holder].(priority := use)];
        }
      }
    }

    /** The two priorities as vTaskPrioritySet leaves them. */
    method PrioritySet(t: Task, p: nat)
      requires t in tasks
      modifies this`tasks
      ensures tasks == old(tasks)[t := M.Reprioritised(old(tasks)[t], p)]
    {
      if tasks[t].base != p {
        if tasks[t].base == tasks[t].priority {
          tasks := tasks[t := tasks[t].(priority := p)];
        }
        tasks := tasks[t := tasks[t].(base := p)];
      }
    }

    /** The critical section in which xQueueSemaphoreTake obtains the mutex. */
    method Take(t: Task, m: MutexId)
      requires t in tasks && m in mutexes && mutexes[m].count > 0
      modifies this
      ensures View() == M.Taken(old(View()), t, m)
      ensures old(M.Accounted(View()) && M.Enabled(View(), M.Take(t, m))) ==> M.Accounted(View())
      ensures old(Allowed(View(), M.Take(t, m))) ==> M.Invariant(View())
    {
      hide M.Accounted, M.Invariant, M.Enabled, M.Disciplined;
      Kept(View(), M.Take(t, m));
      var x := mutexes[m];
      mutexes := mutexes[m := x.(count := x.count - 1, holder := M.Some(t))];
      tasks := tasks[t := tasks[t].(held := tasks[t].held + 1, call := M.NoCall)];
      if x.recursive {
        mutexes := mutexes[m := mutexes[m].(depth := x.depth + 1)];
      }
    }

    /** Blocking on a mutex that is taken: inherit, then join the event list. */
    method Block(t: Task, m: MutexId)
      requires t in tasks && m in mutexes && mutexes[m].holder.Some? && mutexes[m].holder.value in tasks
      modifies this
      ensures View() == M.Blocked(old(View()), t, m)
      ensures old(M.Accounted(View()) && M.Enabled(View(), M.Block(t, m))) ==> M.Accounted(View())
      ensures old(Allowed(View(), M.Block(t, m))) ==> M.Invariant(View())
    {
      hide M.Accounted, M.Invariant, M.Enabled, M.Disciplined;
      Kept(View(), M.Block(t, m));
      var x := mutexes[m];
      var position := M.WaitPosition(tasks, x.waiters, tasks[t].priority);
      var inherited := PriorityInherit(x.holder.value, tasks[t].priority);
      tasks := tasks[t := tasks[t].(ready := false, call := M.InList(m, inherited))];
      mutexes := mutexes[m := x.(waiters := InsertAt(x.waiters, position, t))];
    }

    /** Giving a mutex back and waking the first waiter. */
    method Give(t: Task, m: MutexId)
      requires t in tasks && tasks[t].held > 0 && m in mutexes && t !in mutexes[m].waiters
      requires forall w :: w in mutexes[m].waiters ==> w in tasks && tasks[w].call.InList?
      requires mutexes[m].recursive ==> mutexes[m].depth > 0
      modifies this
      ensures View() == M.Given(old(View()), t, m)
      ensures old(M.Accounted(View()) && M.Enabled(View(), M.Give(t, m))) ==> M.Accounted(View())
      ensures old(Allowed(View(), M.Give(t, m))) ==> M.Invariant(View())
    {
      hide M.Accounted, M.Invariant, M.Enabled, M.Disciplined;
      Kept(View(), M.Give(t, m));
      var x := mutexes[m];
      if x.recursive {
        x := x.(depth := x.depth - 1);
      }
      var lowered := PriorityDisinherit(t);
      x := x.(holder := M.None, count := x.count + 1);
      if x.waiters != [] {
        var w := x.waiters[0];
        assert w in x.waiters;
        tasks := tasks[w := tasks[w].(ready := true, call := M.Retrying(m, tasks[w].call.inherited))];
        x := x.(waiters := x.waiters[1..]);
      }
      mutexes := mutexes[m := x];
    }

    /** The last critical section of a take that timed out. */
    method LeaveAfterTimeout(t: Task)
      requires t in tasks && tasks[t].call.Leaving? && tasks[t].call.id in mutexes
      requires var h := mutexes[tasks[t].call.id].holder; h.Some? ==> h.value in tasks
      modifies this
      ensures View() == M.Left(old(View()), t)
      ensures old(M.Accounted(View()) && M.Enabled(View(), M.Leave(t))) ==> M.Accounted(View())
      ensures old(Allowed(View(), M.Leave(t))) ==> M.Invariant(View())
    {
      hide M.Accounted, M.Invariant, M.Enabled, M.Disciplined;
      Kept(View(), M.Leave(t));
      var x := mutexes[tasks[t].call.id];
      if tasks[t].call.inherited && x.holder.Some? {
        PriorityDisinheritAfterTimeout(x.holder.value, M.HighestWaiting(tasks, x.waiters));
      }
      tasks := tasks[t := tasks[t].(call := M.NoCall)];
    }
  }

  /** A step the source allows in a state of bounded inversion, with the scheduling and nesting the bound needs. */
  ghost predicate Allowed(s: M.State, step: M.Step) {
    M.Invariant(s) && M.Enabled(s, step) && M.Disciplined(s, step)
  }

  lemma Kept(s: M.State, step: M.Step)
    ensures M.Accounted(s) && M.Enabled(s, step) ==> M.Accounted(M.Perform(s, step))
    ensures Allowed(s, step) ==> M.Accounted(s) && M.Invariant(M.Perform(s, step))
  {
    if M.Accounted(s) && M.Enabled(s, step) {
      M.StepAccounts(s, step);
    }
    if Allowed(s, step) {
      M.StepKeeps(s, step);
    }
  }
}
