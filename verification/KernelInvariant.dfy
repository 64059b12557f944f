/** What every scheduler operation keeps. */
module KernelInvariant {
  import opened SeqLists
  import opened TickTime
  import opened Kernel
  import opened Scheduler

  /**
   In unbounded time: `now - tick` is the start of the current epoch.  The delayed list holds wake
   times of this epoch, the overflow list those of the next, and none is earlier than `from`.
   */
  ghost predicate Timely(b: Tcb, modulus: nat, tick: nat, now: nat, second: bool, nextUnblock: nat, from: nat) {
    b.container.Timed? ==>
      && b.wake < modulus && from <= b.due
      && if b.container.second == second
         then b.due == now - tick + b.wake && nextUnblock <= b.wake
         else b.due == now - tick + modulus + b.wake && b.due < now + modulus
  }

  ghost predicate TimesAgree(
    tcbs: map<Task, Tcb>, modulus: Modulus, tick: nat, now: nat, second: bool, nextUnblock: nat, from: nat)
  {
    && tick == now % modulus && nextUnblock < modulus
    && forall t :: t in tcbs ==> Timely(tcbs[t], modulus, tick, now, second, nextUnblock, from)
  }

  ghost predicate InWakeOrder(tcbs: map<Task, Tcb>, lists: Lists) {
    forall b :: Ascending(Wakes(tcbs, Of(lists, Timed(b)).items))
  }

  /** The ready bitmap is exact, and uxTopReadyPriority bounds it. */
  ghost predicate BitsAgree(lists: Lists, bitmap: set<nat>, top: nat, levels: nat) {
    && (forall p :: p in bitmap <==> Of(lists, Ready(p)).items != [])
    && (forall p :: p in bitmap ==> p <= top)
    && top < levels
  }

  ghost predicate NoLoose(tcbs: map<Task, Tcb>) {
    forall t :: t in tcbs ==> tcbs[t].container != Nowhere
  }

  /** Everything but the pending list, the switch flags and the times. */
  ghost predicate Settled(s: State) {
    && Core(s) && NoLoose(s.tcbs) && InWakeOrder(s.tcbs, s.lists)
    && BitsAgree(s.lists, s.bitmap, s.top, s.levels)
    && s.total == |s.tcbs| && s.deleted == |Of(s.lists, Terminating).items|
    && s.tcbs[s.idle].container.Ready?
  }

  ghost predicate Times(s: State, from: nat) {
    TimesAgree(s.tcbs, s.modulus, s.tick, s.now, s.second, s.nextUnblock, from)
  }

  /** No ready task outranks the running one. */
  ghost predicate TopRuns(tcbs: map<Task, Tcb>, current: Task) {
    forall t :: t in tcbs && tcbs[t].container.Ready? && current in tcbs ==>
      tcbs[t].priority <= tcbs[current].priority
  }

  ghost predicate Invariant(s: State) {
    && Settled(s) && Times(s, s.now + 1)
    && s.interrupts == s.now + s.pendedTicks && s.pendedTicks < s.modulus
    && (s.suspended == 0 ==> s.pending == [] && s.pendedTicks == 0)
    && (s.yieldPending || s.switchRequested || TopRuns(s.tcbs, s.current))
  }

  // ---- Wake-order of the two delayed lists ----

  lemma WithoutAscending(tcbs: map<Task, Tcb>, items: seq<Task>, t: Task)
    requires Ascending(Wakes(tcbs, items))
    ensures Ascending(Wakes(tcbs, Without(items, t)))
  {
    hide Without, IndexOf;
    var r, v := Without(items, t), Wakes(tcbs, items);
    forall i, j | 0 <= i < j < |r| ensures Wakes(tcbs, r)[i] <= Wakes(tcbs, r)[j] {
      WithoutAt(items, t, i);
      WithoutAt(items, t, j);
      assert v[Source(items, t, i)] <= v[Source(items, t, j)];
    }
  }

  /** Changing one block that is not in a list leaves the list's wake times alone. */
  lemma WakesFrame(tcbs: map<Task, Tcb>, items: seq<Task>, t: Task, b: Tcb)
    requires t !in items || (t in tcbs && b.wake == tcbs[t].wake)
    ensures Wakes(tcbs[t := b], items) == Wakes(tcbs, items)
  {
  }

  lemma InsertAscending(s: State, t: Task, items: seq<Task>)
    requires t in s.tcbs && Ascending(Wakes(s.tcbs, items))
    ensures Ascending(Wakes(s.tcbs, InsertAt(items, InsertPos(Wakes(s.tcbs, items), s.tcbs[t].wake), t)))
  {
    var v := Wakes(s.tcbs, items);
    var p := InsertPos(v, s.tcbs[t].wake);
    InsertKeepsOrder(v, s.tcbs[t].wake);
    assert Wakes(s.tcbs, InsertAt(items, p, t)) == InsertAt(v, p, s.tcbs[t].wake);
  }

  // ---- Waking a task ----

  lemma WakeTcbs(s: State, t: Task)
    requires t in s.tcbs
    ensures Wake(s, t).tcbs == s.tcbs[t := s.tcbs[t].(container := Ready(s.tcbs[t].priority), event := Free)]
    ensures var r := Wake(s, t);
      r == s.(tcbs := r.tcbs, lists := r.lists, pending := Without(s.pending, t), top := r.top, bitmap := r.bitmap)
  {
  }

  lemma WakeOrder(s: State, t: Task)
    requires Core(s) && InWakeOrder(s.tcbs, s.lists) && t in s.tcbs
    ensures InWakeOrder(Wake(s, t).tcbs, Wake(s, t).lists)
  {
    var s1 := Wake(s, t);
    WakeTcbs(s, t);
    WakeLists(s, t);
    forall b ensures Ascending(Wakes(s1.tcbs, Of(s1.lists, Timed(b)).items)) {
      var items := Of(s.lists, Timed(b)).items;
      WithoutAscending(s.tcbs, items, t);
      WakesFrame(s.tcbs, Without(items, t), t, s1.tcbs[t]);
    }
  }

  lemma WakeBits(s: State, t: Task)
    requires Core(s) && BitsAgree(s.lists, s.bitmap, s.top, s.levels) && t in s.tcbs
    ensures BitsAgree(Wake(s, t).lists, Wake(s, t).bitmap, Wake(s, t).top, s.levels)
  {
    var s1, p := Wake(s, t), s.tcbs[t].priority;
    WakeLists(s, t);
    assert t in Of(s1.lists, Ready(p)).items by { WakeTcbs(s, t); }
    forall q ensures q in s1.bitmap <==> Of(s1.lists, Ready(q)).items != [] {
      if q != p {
        assert t !in Of(s.lists, Ready(q)).items;
      }
    }
  }

  lemma NotListed(s: State, t: Task, l: ListId)
    requires Core(s) && t in s.tcbs && s.tcbs[t].container != l
    ensures t !in Of(s.lists, l).items
  {
  }

  lemma WakeSettled(s: State, t: Task)
    requires Settled(s) && t in s.tcbs && s.tcbs[t].container != Terminating
    ensures Settled(Wake(s, t))
  {
    hide Linked, EventsAgree, InWakeOrder, BitsAgree, Wake;
    WakeTcbs(s, t);
    WakeOrder(s, t);
    WakeBits(s, t);
    WakeLists(s, t);
    NotListed(s, t, Terminating);
  }

  lemma WakeTimes(s: State, t: Task, from: nat)
    requires t in s.tcbs && Times(s, from)
    ensures Times(Wake(s, t), from)
  {
    WakeTcbs(s, t);
  }

  /** A task that does not outrank the running one can be woken without a switch. */
  lemma WakeTop(s: State, t: Task)
    requires t in s.tcbs && s.current in s.tcbs && TopRuns(s.tcbs, s.current)
    requires Priority(s, t) <= Priority(s, s.current)
    ensures TopRuns(Wake(s, t).tcbs, s.current)
  {
    WakeTcbs(s, t);
  }
}
