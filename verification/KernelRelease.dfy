/** A task that is released becomes ready: at once, or when the scheduler is resumed. */
module KernelRelease {
  import opened SeqLists
  import opened Kernel
  import opened Scheduler
  import opened KernelInvariant
  import opened KernelTicks
  import opened KernelCalls
  import opened KernelRuns

  /** The calls that end a task's wait or suspension. */
  ghost predicate Releases(s: State, c: Call, t: Task) {
    t in s.tcbs &&
    match c
    case Notified(u) => u == t && s.tcbs[t].notify == Waiting
    case NotifiedFromISR(u) => u == t && s.tcbs[t].notify == Waiting
    case EventOccurs(u) => u == t
    case UnorderedEventOccurs(u) => u == t
    case ResumeOne(u) => u == t && t != s.current && IsSuspended(s, t)
    case ResumeOneFromISR(u) => u == t && IsSuspended(s, t)
    case Abort(u) => u == t && t != s.current && Blocked(s, t)
    case _ => false
  }

  /** Ready, or in the pending list because the scheduler is suspended. */
  ghost predicate Released(s: State, t: Task) {
    t in s.tcbs && (s.tcbs[t].container.Ready? || (s.suspended > 0 && t in s.pending))
  }

  lemma WakeReleases(s: State, t: Task)
    requires t in s.tcbs
    ensures Released(Wake(s, t), t) && Wake(s, t).suspended == s.suspended
  {
    hide Wake;
    WakeTcbs(s, t);
  }

  lemma HoldReleases(s: State, t: Task)
    requires t in s.tcbs && s.suspended > 0
    ensures Released(Hold(s, t), t)
  {
    assert (s.pending + [t])[|s.pending|] == t;
  }

  /** Every release makes the task ready or pending. */
  lemma ReleasedAtOnce(s: State, c: Call, t: Task)
    requires Invariant(s) && Enabled(s, c) && Releases(s, c, t)
    ensures Released(Perform(s, c), t)
  {
    hide Invariant, Wake, Hold;
    if c.Notified? || c.NotifiedFromISR? {
      NotificationReleases(s, c, t);
    } else {
      WakeReleases(s, t);
      if s.suspended > 0 {
        HoldReleases(s, t);
      }
      HoldFields(s, t);
      WakeTcbs(s, t);
    }
  }

  lemma NotificationReleases(s: State, c: Call, t: Task)
    requires Invariant(s) && Enabled(s, c) && Releases(s, c, t) && (c.Notified? || c.NotifiedFromISR?)
    ensures Released(Perform(s, c), t)
  {
    hide Invariant, Wake, Hold;
    var s0 := With(s, t, s.tcbs[t].(notify := Received));
    WakeReleases(s0, t);
    if s.suspended > 0 {
      HoldReleases(s0, t);
    }
    HoldFields(s0, t);
    WakeTcbs(s0, t);
  }

  lemma HoldFields(s: State, t: Task)
    requires t in s.tcbs
    ensures Hold(s, t) == s.(tcbs := Hold(s, t).tcbs, pending := Hold(s, t).pending)
  {
  }

  /** Emptying the pending list makes every task in it ready. */
  lemma {:induction false} MovePendingReadies(s: State, t: Task)
    requires Core(s) && t in s.tcbs && (t in s.pending || s.tcbs[t].container.Ready?)
    ensures t in MovePending(s).tcbs && MovePending(s).tcbs[t].container.Ready?
    decreases |s.pending|
  {
    hide Linked, Wake, Without;
    if s.pending != [] {
      var u := s.pending[0];
      assert u in s.pending;
      WakeCore(s, u);
      WakeTcbs(s, u);
      WithoutMembers(s.pending, u);
      var s1 := Wake(s, u);
      MovePendingReadies(if Priority(s, u) >= Priority(s, s.current) then s1.(yieldPending := true) else s1, t);
    }
  }

  /** Once the scheduler runs again every pending task is ready. */
  lemma ResumptionReadies(s: State, t: Task)
    requires Invariant(s) && s.suspended == 1 && Released(s, t)
    ensures var r := ResumeAll(s); t in r.tcbs && r.tcbs[t].container.Ready? && r.pending == []
  {
    hide Linked, EventsAgree, InWakeOrder, BitsAgree, NoLoose, TimesAgree, TopRuns, MovePending, Replay,
         ResetNextUnblock;
    var s0 := s.(suspended := 0);
    MovePendingKeeps(s0);
    MovePendingReadies(s0, t);
    var s1 := MovePending(s0);
    ResetKeepsTimes(s1, s1);
    ResetFields(s1);
    var s2 := if s0.pending == [] then s1 else ResetNextUnblock(s1);
    ReplaySettled(s2, s2.pendedTicks);
    ReplayWakes(s2, s2.pendedTicks);
  }
}
