/** Tick processing: what one tick, or a batch of pended ticks, does to every task. */
module KernelTicks {
  import opened Arith
  import opened SeqLists
  import opened Kernel
  import opened Scheduler
  import opened KernelInvariant

  function Woken(b: Tcb): Tcb {
    b.(container := Ready(b.priority), event := Free)
  }

  /** Exactly the tasks due at times up to `until` have become ready; the others are as they were. */
  ghost predicate WokenUntil(before: map<Task, Tcb>, after: map<Task, Tcb>, until: nat) {
    && after.Keys == before.Keys
    && forall t :: t in before ==>
         after[t] == if before[t].container.Timed? && before[t].due <= until then Woken(before[t]) else before[t]
  }

  /** The parts of the state that tick processing does not touch. */
  ghost predicate SameButTasks(s: State, r: State) {
    && r.modulus == s.modulus && r.levels == s.levels && r.current == s.current && r.idle == s.idle
    && r.interrupts == s.interrupts && r.pendedTicks == s.pendedTicks && r.suspended == s.suspended
    && r.switchRequested == s.switchRequested && r.pending == s.pending == []
  }

  lemma HeadIsEarliest(s: State)
    requires InWakeOrder(s.tcbs, s.lists) && Core(s)
    requires Of(s.lists, Timed(s.second)).items != []
    ensures var l := Of(s.lists, Timed(s.second)).items;
      l[0] in s.tcbs && s.tcbs[l[0]].container == Timed(s.second) &&
      forall t :: t in s.tcbs && s.tcbs[t].container == Timed(s.second) ==> s.tcbs[l[0]].wake <= s.tcbs[t].wake
  {
    var l := Of(s.lists, Timed(s.second)).items;
    var v := Wakes(s.tcbs, l);
    assert l[0] in l;
    forall t | t in s.tcbs && s.tcbs[t].container == Timed(s.second)
      ensures s.tcbs[l[0]].wake <= s.tcbs[t].wake
    {
      assert t in l;
      var i := IndexOf(l, t);
      assert v[0] <= v[i];
    }
  }

  /** Nothing in the delayed list is due: the loop only records the next unblock time. */
  ghost predicate Stops(s: State)
    requires Core(s)
  {
    var l := Of(s.lists, Timed(s.second)).items;
    l == [] || (l[0] in l && s.tick < s.tcbs[l[0]].wake)
  }

  lemma DrainStops(s: State)
    requires Settled(s) && Times(s, s.now) && Stops(s)
    ensures Times(Drain(s).0, s.now + 1)
    ensures Drain(s).0 == s.(nextUnblock := Drain(s).0.nextUnblock)
    ensures forall t :: t in s.tcbs && s.tcbs[t].container.Timed? ==> s.tcbs[t].due > s.now
  {
    hide EventsAgree, InWakeOrder, BitsAgree, NoLoose;
    var l := Of(s.lists, Timed(s.second)).items;
    if l != [] {
      HeadIsEarliest(s);
    }
    forall t | t in s.tcbs && s.tcbs[t].container.Timed? ensures s.tcbs[t].due > s.now {
      assert s.tcbs[t].container == Timed(s.second) ==> t in l;
    }
  }

  /** One turn of the loop wakes one task, which is due exactly now. */
  lemma DrainTurn(s: State) returns (t: Task)
    requires Settled(s) && Times(s, s.now) && s.pending == [] && !Stops(s)
    ensures t in s.tcbs && s.tcbs[t].container == Timed(s.second) && s.tcbs[t].due == s.now
    ensures var s1 := Wake(s, t);
      && Settled(s1) && Times(s1, s.now) && SameButTasks(s, s1)
      && s1.now == s.now && s1.tick == s.tick && s1.yieldPending == s.yieldPending && s1.second == s.second
      && s1.tcbs == s.tcbs[t := Woken(s.tcbs[t])]
      && |Of(s1.lists, Timed(s.second)).items| < |Of(s.lists, Timed(s.second)).items|
      && Drain(s).0 == Drain(s1).0
      && Drain(s).1 == (Drain(s1).1 || Priority(s, t) >= Priority(s, s.current))
  {
    hide EventsAgree, InWakeOrder, BitsAgree, NoLoose;
    HeadIsEarliest(s);
    t := Of(s.lists, Timed(s.second)).items[0];
    assert Timely(s.tcbs[t], s.modulus, s.tick, s.now, s.second, s.nextUnblock, s.now);
    WakeLists(s, t);
    WakeSettled(s, t);
    WakeTimes(s, t, s.now);
    WakeTcbs(s, t);
  }

  lemma {:induction false} DrainSettled(s: State)
    requires Settled(s) && Times(s, s.now) && s.pending == []
    ensures var r := Drain(s).0;
      && Settled(r) && Times(r, s.now + 1) && SameButTasks(s, r)
      && r.now == s.now && r.yieldPending == s.yieldPending
    decreases |Of(s.lists, Timed(s.second)).items|
  {
    hide Linked, EventsAgree, InWakeOrder, BitsAgree, NoLoose, TimesAgree, TopRuns, Drain, Wake;
    if Stops(s) {
      DrainStops(s);
    } else {
      var t := DrainTurn(s);
      DrainSettled(Wake(s, t));
    }
  }

  /** The loop wakes exactly the tasks that are due now. */
  lemma {:induction false} DrainWoken(s: State)
    requires Settled(s) && Times(s, s.now) && s.pending == []
    ensures WokenUntil(s.tcbs, Drain(s).0.tcbs, s.now)
    decreases |Of(s.lists, Timed(s.second)).items|
  {
    hide Linked, EventsAgree, InWakeOrder, BitsAgree, NoLoose, TimesAgree, TopRuns;
    if Stops(s) {
      DrainStops(s);
    } else {
      var t := DrainTurn(s);
      DrainWoken(Wake(s, t));
      WokenFirst(s.tcbs, t, Drain(s).0.tcbs, s.now);
    }
  }

  lemma WokenFirst(before: map<Task, Tcb>, t: Task, after: map<Task, Tcb>, until: nat)
    requires t in before && before[t].container.Timed? && before[t].due <= until
    requires WokenUntil(before[t := Woken(before[t])], after, until)
    ensures WokenUntil(before, after, until)
  {
    var mid := before[t := Woken(before[t])];
    forall x | x in before
      ensures after[x] == if before[x].container.Timed? && before[x].due <= until then Woken(before[x]) else before[x]
    {
      assert x in mid;
    }
  }

  /** Either the loop asks for a switch, or nothing it woke reaches the running priority. */
  lemma {:induction false} DrainTop(s: State)
    requires Settled(s) && Times(s, s.now) && s.pending == [] && TopRuns(s.tcbs, s.current)
    ensures Drain(s).1 || TopRuns(Drain(s).0.tcbs, s.current)
    decreases |Of(s.lists, Timed(s.second)).items|
  {
    hide Linked, EventsAgree, InWakeOrder, BitsAgree, NoLoose, TimesAgree, WokenUntil;
    if !Stops(s) {
      var t := DrainTurn(s);
      if Priority(s, t) < Priority(s, s.current) {
        WakeTop(s, t);
        DrainTop(Wake(s, t));
      }
    }
  }

  // ---- One counted tick ----

  /** prvResetNextTaskUnblockTime stores a time no later than any listed wake time. */
  lemma ResetTimes(s: State, from: nat)
    requires Core(s) && InWakeOrder(s.tcbs, s.lists) && s.tick == s.now % s.modulus
    requires forall t :: t in s.tcbs ==> Timely(s.tcbs[t], s.modulus, s.tick, s.now, s.second, 0, from)
    ensures Times(ResetNextUnblock(s), from)
  {
    if Of(s.lists, Timed(s.second)).items != [] {
      HeadIsEarliest(s);
    }
  }

  function Later(s: State): State {
    s.(tick := s.tick + 1, now := s.now + 1)
  }

  function Wrapped(s: State): State {
    s.(tick := 0, now := s.now + 1, second := !s.second)
  }

  lemma CountIs(s: State)
    requires s.tick == s.now % s.modulus
    ensures Count(s) == if s.tick + 1 == s.modulus then ResetNextUnblock(Wrapped(s)) else Later(s)
    ensures Count(s).tick == (s.now + 1) % s.modulus
  {
    NextTick(s.tick, s.now, s.modulus);
  }

  lemma CountFields(s: State)
    ensures var r := Count(s);
      r == s.(tick := r.tick, now := s.now + 1, second := r.second, nextUnblock := r.nextUnblock)
  {
  }

  /** The delayed list is empty whenever the tick count is about to wrap. */
  lemma EmptyAtWrap(s: State)
    requires Settled(s) && Times(s, s.now + 1) && s.tick + 1 == s.modulus
    ensures Of(s.lists, Timed(s.second)).items == []
  {
    var l := Of(s.lists, Timed(s.second)).items;
    if l != [] {
      HeadIsEarliest(s);
      assert false;
    }
  }

  /** After the exchange the former overflow list holds this epoch's times. */
  lemma WrappedTimes(s: State)
    requires Settled(s) && Times(s, s.now + 1) && s.tick + 1 == s.modulus
    ensures forall t :: t in s.tcbs ==> Timely(s.tcbs[t], s.modulus, 0, s.now + 1, !s.second, 0, s.now + 1)
  {
    EmptyAtWrap(s);
    forall t | t in s.tcbs ensures Timely(s.tcbs[t], s.modulus, 0, s.now + 1, !s.second, 0, s.now + 1) {
      assert Timely(s.tcbs[t], s.modulus, s.tick, s.now, s.second, s.nextUnblock, s.now + 1);
      assert s.tcbs[t].container == Timed(s.second) ==> t in Of(s.lists, Timed(s.second)).items;
    }
  }

  lemma CountTimes(s: State)
    requires Settled(s) && Times(s, s.now + 1)
    ensures Settled(Count(s)) && Times(Count(s), s.now + 1)
  {
    hide Linked, EventsAgree, InWakeOrder, BitsAgree, NoLoose;
    CountIs(s);
    if s.tick + 1 == s.modulus {
      WrappedTimes(s);
      ResetTimes(Wrapped(s), s.now + 1);
    } else {
      forall t | t in s.tcbs
        ensures Timely(s.tcbs[t], s.modulus, s.tick + 1, s.now + 1, s.second, s.nextUnblock, s.now + 1)
      {
        assert Timely(s.tcbs[t], s.modulus, s.tick, s.now, s.second, s.nextUnblock, s.now + 1);
      }
    }
  }

  /** While the tick count has not reached xNextTaskUnblockTime nothing is due. */
  lemma NothingDue(s: State)
    requires Times(s, s.now) && s.tick < s.nextUnblock
    ensures Times(s, s.now + 1) && WokenUntil(s.tcbs, s.tcbs, s.now)
  {
    forall t | t in s.tcbs
      ensures Timely(s.tcbs[t], s.modulus, s.tick, s.now, s.second, s.nextUnblock, s.now + 1)
    {
      assert Timely(s.tcbs[t], s.modulus, s.tick, s.now, s.second, s.nextUnblock, s.now);
    }
    NoneDue(s);
  }

  lemma NoneDue(s: State)
    requires Times(s, s.now + 1)
    ensures WokenUntil(s.tcbs, s.tcbs, s.now)
  {
    forall t | t in s.tcbs ensures s.tcbs[t].container.Timed? ==> s.tcbs[t].due > s.now {
      assert Timely(s.tcbs[t], s.modulus, s.tick, s.now, s.second, s.nextUnblock, s.now + 1);
    }
  }

  /** One counted tick readies exactly the tasks whose unbounded wake time it reaches. */
  lemma CountTickWakes(s: State)
    requires Settled(s) && Times(s, s.now + 1) && s.pending == []
    ensures var r := CountTick(s);
      && Settled(r.0) && Times(r.0, s.now + 2) && SameButTasks(s, r.0)
      && r.0.now == s.now + 1 && r.0.yieldPending == s.yieldPending
      && WokenUntil(s.tcbs, r.0.tcbs, s.now + 1)
  {
    hide Linked, EventsAgree, InWakeOrder, BitsAgree, NoLoose, TimesAgree, TopRuns, WokenUntil, Count;
    CountTimes(s);
    CountFields(s);
    var s1 := Count(s);
    if s1.tick >= s1.nextUnblock {
      DrainSettled(s1);
      DrainWoken(s1);
    } else {
      NothingDue(s1);
    }
  }

  lemma CountTickTop(s: State)
    requires Settled(s) && Times(s, s.now + 1) && s.pending == []
    requires s.yieldPending || TopRuns(s.tcbs, s.current)
    ensures CountTick(s).1 || TopRuns(CountTick(s).0.tcbs, s.current)
  {
    hide Linked, EventsAgree, InWakeOrder, BitsAgree, NoLoose, TimesAgree, TopRuns, WokenUntil, Count;
    CountTickWakes(s);
    CountTimes(s);
    CountFields(s);
    var s1 := Count(s);
    if s1.tick >= s1.nextUnblock && TopRuns(s.tcbs, s.current) {
      DrainTop(s1);
    }
  }

  lemma {:induction false} ReplaySettled(s: State, n: nat)
    requires Settled(s) && Times(s, s.now + 1) && s.pending == []
    ensures var r := Replay(s, n);
      Settled(r) && Times(r, s.now + n + 1) && SameButTasks(s, r) && r.now == s.now + n
    decreases n
  {
    hide Linked, EventsAgree, InWakeOrder, BitsAgree, NoLoose, TimesAgree, TopRuns, WokenUntil, CountTick;
    if n > 0 {
      CountTickWakes(s);
      ReplaySettled(Flagged(CountTick(s)), n - 1);
    }
  }

  /** n replayed ticks wake exactly the tasks due within them. */
  lemma {:induction false} ReplayWakes(s: State, n: nat)
    requires Settled(s) && Times(s, s.now + 1) && s.pending == []
    ensures WokenUntil(s.tcbs, Replay(s, n).tcbs, s.now + n)
    decreases n
  {
    hide Linked, EventsAgree, InWakeOrder, BitsAgree, NoLoose, TimesAgree, TopRuns, WokenUntil, CountTick;
    if n > 0 {
      CountTickWakes(s);
      var r := Flagged(CountTick(s));
      ReplayWakes(r, n - 1);
      WokenTwice(s.tcbs, r.tcbs, Replay(r, n - 1).tcbs, s.now + 1, s.now + n);
    } else {
      NoneDue(s);
    }
  }

  lemma {:induction false} ReplayTop(s: State, n: nat)
    requires Settled(s) && Times(s, s.now + 1) && s.pending == []
    requires s.yieldPending || TopRuns(s.tcbs, s.current)
    ensures Replay(s, n).yieldPending || TopRuns(Replay(s, n).tcbs, s.current)
    decreases n
  {
    hide Linked, EventsAgree, InWakeOrder, BitsAgree, NoLoose, TimesAgree, TopRuns, WokenUntil, CountTick;
    if n > 0 {
      CountTickWakes(s);
      CountTickTop(s);
      ReplayTop(Flagged(CountTick(s)), n - 1);
    }
  }

  lemma WokenTwice(a: map<Task, Tcb>, b: map<Task, Tcb>, c: map<Task, Tcb>, first: nat, second: nat)
    requires first <= second && WokenUntil(a, b, first) && WokenUntil(b, c, second)
    ensures WokenUntil(a, c, second)
  {
    forall t | t in a
      ensures c[t] == if a[t].container.Timed? && a[t].due <= second then Woken(a[t]) else a[t]
    {
      assert t in b;
    }
  }
}
