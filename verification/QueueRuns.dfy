/** Whole calls on a queue: when they return, when and where they wait, who is woken, and how they end. */
module QueueRuns {
  import opened SeqLists
  import opened QueueProtocol

  // ---- The section at the top of the loop ----

  /** There is an item for a receiver or a peek, or a place for a sender; an overwriting send needs none. */
  predicate CanGoOn(q: Control, k: Kind) {
    match k
    case Taking => q.count > 0
    case Peeking => q.count > 0
    case Putting(overwrite) => q.count < q.length || overwrite
  }

  /** A call returns from there exactly when it can go on or may not wait; else it goes on to lock the queue. */
  lemma TopDecides(s: State, t: Task, mayWait: bool)
    requires Enabled(s, Top(t, mayWait))
    ensures var r, k := Perform(s, Top(t, mayWait)), PcOf(s, t).kind;
      && (PcOf(r, t) == Outside <==> CanGoOn(s.q, k) || !mayWait)
      && (PcOf(r, t) != Outside ==> PcOf(r, t) == Missed(k))
      && r.locker == s.locker && forall u :: u != t ==> PcOf(r, u) == PcOf(s, u)
  {
  }

  /** What it does to the queue: an item less for a receiver, one more for a send that does not overwrite one. */
  lemma TopCounts(s: State, t: Task, mayWait: bool)
    requires Enabled(s, Top(t, mayWait))
    ensures var r, q, k := Perform(s, Top(t, mayWait)).q, s.q, PcOf(s, t).kind;
      && (k == Taking && q.count > 0 ==> r.count == q.count - 1)
      && (k.Putting? && CanGoOn(q, k) && (q.count == 0 || !k.overwrite) ==> r.count == q.count + 1)
      && (k.Putting? && k.overwrite && q.count > 0 ==> r.count == q.count)
      && (k == Peeking || !CanGoOn(q, k) ==> r.count == q.count)
      && r.length == q.length && r.rxLock == q.rxLock && r.txLock == q.txLock
  {
  }

  /** Only the task at the front of the other side's list is woken, which is the highest and longest waiting. */
  ghost predicate FirstIsWoken(before: seq<Task>, after: seq<Task>, wokenBefore: set<Task>, wokenAfter: set<Task>) {
    if before == [] then after == [] && wokenAfter == wokenBefore
    else before == [before[0]] + after && wokenAfter == wokenBefore + {before[0]}
  }

  lemma TopWakes(s: State, t: Task, mayWait: bool)
    requires Enabled(s, Top(t, mayWait))
    ensures var r, q, k := Perform(s, Top(t, mayWait)).q, s.q, PcOf(s, t).kind;
      && (CanGoOn(q, k) && k != Taking ==>
            && FirstIsWoken(q.waitRx, r.waitRx, q.wokenRx - {t}, r.wokenRx)
            && r.waitTx == q.waitTx && r.wokenTx == q.wokenTx - {t})
      && (CanGoOn(q, k) && k == Taking ==>
            && FirstIsWoken(q.waitTx, r.waitTx, q.wokenTx - {t}, r.wokenTx)
            && r.waitRx == q.waitRx && r.wokenRx == q.wokenRx - {t})
      && (!CanGoOn(q, k) ==>
            && r.waitRx == q.waitRx && r.waitTx == q.waitTx
            && r.wokenRx == q.wokenRx - {t} && r.wokenTx == q.wokenTx - {t})
  {
  }

  /** An interrupt wakes the first task of the other side if the queue is not locked, else the lock counts it. */
  lemma IsrDecides(s: State, overwrite: bool)
    ensures Enabled(s, IsrPut(overwrite)) ==>
      var r, q := Perform(s, IsrPut(overwrite)).q, s.q;
      && r.waitTx == q.waitTx && r.wokenTx == q.wokenTx && r.rxLock == q.rxLock
      && (q.txLock == UNLOCKED ==> FirstIsWoken(q.waitRx, r.waitRx, q.wokenRx, r.wokenRx) && r.txLock == UNLOCKED)
      && (q.txLock != UNLOCKED ==> r.txLock == q.txLock + 1 && r.waitRx == q.waitRx && r.wokenRx == q.wokenRx)
    ensures Enabled(s, IsrTake) ==>
      var r, q := Perform(s, IsrTake).q, s.q;
      && r.waitRx == q.waitRx && r.wokenRx == q.wokenRx && r.txLock == q.txLock
      && (q.rxLock == UNLOCKED ==> FirstIsWoken(q.waitTx, r.waitTx, q.wokenTx, r.wokenTx) && r.rxLock == UNLOCKED)
      && (q.rxLock != UNLOCKED ==> r.rxLock == q.rxLock + 1 && r.waitTx == q.waitTx && r.wokenTx == q.wokenTx)
  {
  }

  /** A reset empties and unlocks the queue and wakes the first sender; receivers go on waiting. */
  lemma ResetDecides(q: Control)
    ensures var r := Reset(q);
      && r.count == 0 && r.rxLock == UNLOCKED == r.txLock && r.length == q.length
      && FirstIsWoken(q.waitTx, r.waitTx, q.wokenTx, r.wokenTx) && r.waitRx == q.waitRx && r.wokenRx == q.wokenRx
  {
  }

  function Members(ts: seq<Task>): set<Task> {
    set i | 0 <= i < |ts| :: ts[i]
  }

  /** What waking n tasks from the front of a list leaves and wakes: the first n, or all. */
  ghost predicate FirstAreWoken(
    before: seq<Task>, after: seq<Task>, wokenBefore: set<Task>, wokenAfter: set<Task>, n: nat)
  {
    var k := if n < |before| then n else |before|;
    after == before[k..] && wokenAfter == wokenBefore + Members(before[..k])
  }

  /** The unlock loops wake the first n tasks of the list, or all of them, and nothing else changes. */
  lemma {:induction false} UnlockWakesReceivers(q: Control, n: nat)
    ensures var r := WakeReceivers(q, n);
      FirstAreWoken(q.waitRx, r.waitRx, q.wokenRx, r.wokenRx, n) && r == q.(waitRx := r.waitRx, wokenRx := r.wokenRx)
    decreases n
  {
    if n > 0 && q.waitRx != [] {
      UnlockWakesReceivers(WakeReceiver(q), n - 1);
      FirstMember(q.waitRx, n);
    }
    assert Members([]) == {};
  }

  lemma {:induction false} UnlockWakesSenders(q: Control, n: nat)
    ensures var r := WakeSenders(q, n);
      FirstAreWoken(q.waitTx, r.waitTx, q.wokenTx, r.wokenTx, n) && r == q.(waitTx := r.waitTx, wokenTx := r.wokenTx)
    decreases n
  {
    if n > 0 && q.waitTx != [] {
      UnlockWakesSenders(WakeSender(q), n - 1);
      FirstMember(q.waitTx, n);
    }
    assert Members([]) == {};
  }

  lemma FirstMember(ts: seq<Task>, n: nat)
    requires n > 0
    ensures var k := if n < |ts| then n else |ts|;
      ts != [] ==>
        k > 0 && ts[1..][k - 1..] == ts[k..] && Members(ts[..k]) == {ts[0]} + Members(ts[1..][..k - 1])
  {
    if ts != [] {
      var k := if n < |ts| then n else |ts|;
      var first, rest := ts[..k], ts[1..][..k - 1];
      forall u ensures u in Members(first) <==> u == ts[0] || u in Members(rest) {
        if u in Members(first) {
          var i :| 0 <= i < |first| && first[i] == u;
          if i > 0 { assert rest[i - 1] == u; }
        }
        if u in Members(rest) {
          var i :| 0 <= i < |rest| && rest[i] == u;
          assert first[i + 1] == u;
        }
        assert first[0] == ts[0];
      }
    }
  }

  // ---- Conservation ----

  /** Whether a step adds an item, and whether it removes one. */
  predicate Adds(s: State, step: Step) {
    match step
    case Top(t, _) =>
      && PcOf(s, t).AtTop? && PcOf(s, t).kind.Putting? && CanGoOn(s.q, PcOf(s, t).kind)
      && (s.q.count == 0 || !PcOf(s, t).kind.overwrite)
    case IsrPut(overwrite) => s.q.count == 0 || !overwrite
    case _ => false
  }

  predicate Removes(s: State, step: Step) {
    match step
    case Top(t, _) => PcOf(s, t).AtTop? && PcOf(s, t).kind == Taking && s.q.count > 0
    case IsrTake => true
    case _ => false
  }

  lemma StepConserves(s: State, step: Step)
    requires Enabled(s, step) && step != ResetStep
    ensures Perform(s, step).q.count == s.q.count + (if Adds(s, step) then 1 else 0) - if Removes(s, step) then 1 else 0
  {
    match step {
      case Top(t, mayWait) => TopCounts(s, t, mayWait);
      case UnlockTxStep(_) => if s.q.txLock > 0 { UnlockWakesReceivers(s.q, s.q.txLock); }
      case UnlockRxStep(_) => if s.q.rxLock > 0 { UnlockWakesSenders(s.q, s.q.rxLock); }
      case _ =>
    }
  }

  ghost function Added(s: State, steps: seq<Step>): nat
    requires Possible(s, steps)
    decreases |steps|
  {
    if steps == [] then 0 else (if Adds(s, steps[0]) then 1 else 0) + Added(Perform(s, steps[0]), steps[1..])
  }

  ghost function Removed(s: State, steps: seq<Step>): nat
    requires Possible(s, steps)
    decreases |steps|
  {
    if steps == [] then 0 else (if Removes(s, steps[0]) then 1 else 0) + Removed(Perform(s, steps[0]), steps[1..])
  }

  /** Over every run without a reset, the queue holds the items it held, those sent, less those received. */
  lemma {:induction false} ItemsAreConserved(s: State, steps: seq<Step>)
    requires Possible(s, steps) && ResetStep !in steps
    ensures Run(s, steps).q.count == s.q.count + Added(s, steps) - Removed(s, steps)
    decreases |steps|
  {
    if steps != [] {
      StepConserves(s, steps[0]);
      hide Enabled, Perform, Adds, Removes;
      ItemsAreConserved(Perform(s, steps[0]), steps[1..]);
    }
  }

  // ---- Runs, step by step ----

  lemma AddStep(s: State, steps: seq<Step>, r: State, step: Step) returns (more: seq<Step>, r': State)
    requires Possible(s, steps) && Run(s, steps) == r && Enabled(r, step)
    ensures Possible(s, more) && more == steps + [step] && r' == Perform(r, step) == Run(s, more)
  {
    hide Enabled, Perform;
    more, r' := steps + [step], Perform(r, step);
    assert Possible(r', []) && Run(r', []) == r';
    assert [step][1..] == [];
    RunConcat(s, steps, [step]);
  }

  /** Runs can be put together. */
  lemma {:induction false} RunConcat(s: State, a: seq<Step>, b: seq<Step>)
    requires Possible(s, a) && Possible(Run(s, a), b)
    ensures Possible(s, a + b) && Run(s, a + b) == Run(Run(s, a), b)
    decreases |a|
  {
    hide Enabled, Perform;
    if a == [] {
      assert a + b == b;
    } else {
      assert (a + b)[1..] == a[1..] + b;
      RunConcat(Perform(s, a[0]), a[1..], b);
    }
  }

  /** A call of this kind can be made and finds nothing to do: a full queue to send to, an empty one otherwise. */
  predicate FindsNothing(r: State, t: Task, k: Kind) {
    && r.locker == {} && PcOf(r, t) == Outside && r.q.rxLock == UNLOCKED == r.q.txLock
    && t !in r.q.wokenRx && t !in r.q.wokenTx && !Waits(r, t)
    && k != Putting(true) && !CanGoOn(r.q, k)
  }

  lemma CallLocks(s: State, steps: seq<Step>, r: State, t: Task, k: Kind) returns (more: seq<Step>, r': State)
    requires Possible(s, steps) && Run(s, steps) == r && FindsNothing(r, t, k)
    ensures Possible(s, more) && Run(s, more) == r'
    ensures r' == State(r.q.(rxLock := 0, txLock := 0), r.pcs[t := Locked(k)], {t})
  {
    hide Possible, Run;
    more, r' := AddStep(s, steps, r, Begin(t, k));
    more, r' := TopLocks(s, more, r', t, k);
  }

  lemma TopLocks(s: State, steps: seq<Step>, r: State, t: Task, k: Kind) returns (more: seq<Step>, r': State)
    requires Possible(s, steps) && Run(s, steps) == r
    requires r.locker == {} && PcOf(r, t) == AtTop(k) && r.q.rxLock == UNLOCKED == r.q.txLock
    requires t !in r.q.wokenRx && t !in r.q.wokenTx && !Waits(r, t) && !CanGoOn(r.q, k)
    ensures Possible(s, more) && Run(s, more) == r'
    ensures r' == State(r.q.(rxLock := 0, txLock := 0), r.pcs[t := Locked(k)], {t})
  {
    hide Possible, Run;
    more, r' := AddStep(s, steps, r, Top(t, true));
    more, r' := AddStep(s, more, r', LockStep(t));
  }

  /** Unlocking, with nothing posted or received meanwhile. */
  lemma CallUnlocks(s: State, steps: seq<Step>, r: State, t: Task) returns (more: seq<Step>, r': State)
    requires Possible(s, steps) && Run(s, steps) == r
    requires PcOf(r, t).Unlocking? && r.locker == {t} && r.q.rxLock == 0 == r.q.txLock
    ensures Possible(s, more) && Run(s, more) == r' && r'.locker == {}
    ensures r'.q == r.q.(rxLock := UNLOCKED, txLock := UNLOCKED)
    ensures var k := PcOf(r, t).kind;
      r'.pcs == r.pcs[t := if PcOf(r, t).next == Retry then AtTop(k) else if k.Putting? then Outside else LastLook(k)]
  {
    hide Possible, Run;
    more, r' := AddStep(s, steps, r, UnlockTxStep(t));
    more, r' := AddStep(s, more, r', UnlockRxStep(t));
    more, r' := AddStep(s, more, r', Resume(t));
  }

  /**
   A call that finds nothing to do and may wait locks the queue, looks again, and ends up in the event list
   of its kind, at any place given; nothing else changes.
   */
  lemma CallBlocks(s: State, steps: seq<Step>, r: State, t: Task, k: Kind, p: nat)
    returns (more: seq<Step>, r': State)
    requires Possible(s, steps) && Run(s, steps) == r && FindsNothing(r, t, k)
    requires p <= if k.Putting? then |r.q.waitTx| else |r.q.waitRx|
    ensures Possible(s, more) && Run(s, more) == r'
    ensures r'.pcs == r.pcs[t := AtTop(k)] && r'.locker == {}
    ensures r'.q == if k.Putting? then r.q.(waitTx := InsertAt(r.q.waitTx, p, t))
                    else r.q.(waitRx := InsertAt(r.q.waitRx, p, t))
  {
    hide Possible, Run, InsertAt;
    more, r' := CallLocks(s, steps, r, t, k);
    more, r' := AddStep(s, more, r', Check(t, false));
    more, r' := AddStep(s, more, r', Place(t, p));
    more, r' := CallUnlocks(s, more, r', t);
  }

  /**
   A call that blocks and times out, with nothing else happening, has no effect: the task is out of the event
   list again, and the queue as it was.
   */
  lemma CallTimesOut(s: State, steps: seq<Step>, r: State, t: Task, k: Kind, p: nat)
    returns (more: seq<Step>, r': State)
    requires Possible(s, steps) && Run(s, steps) == r && FindsNothing(r, t, k)
    requires p <= if k.Putting? then |r.q.waitTx| else |r.q.waitRx|
    ensures Possible(s, more) && Run(s, more) == r'
    ensures r' == State(r.q, r.pcs[t := Outside], {})
  {
    hide Possible, Run, InsertAt, Without;
    more, r' := CallBlocks(s, steps, r, t, k, p);
    BlockedWaits(r, r', t, k, p);
    more, r' := AddStep(s, more, r', Timeout(t));
    assert r'.q == r.q;
    more, r' := TopLocks(s, more, r', t, k);
    more, r' := AddStep(s, more, r', Check(t, true));
    more, r' := CallUnlocks(s, more, r', t);
    if !k.Putting? {
      more, r' := AddStep(s, more, r', Look(t));
    }
    assert r'.pcs == r.pcs[t := Outside];
  }

  lemma BlockedWaits(r: State, r': State, t: Task, k: Kind, p: nat)
    requires !Waits(r, t) && p <= if k.Putting? then |r.q.waitTx| else |r.q.waitRx|
    requires r'.q == if k.Putting? then r.q.(waitTx := InsertAt(r.q.waitTx, p, t))
                     else r.q.(waitRx := InsertAt(r.q.waitRx, p, t))
    ensures Waits(r', t) && Without(r'.q.waitRx, t) == r.q.waitRx && Without(r'.q.waitTx, t) == r.q.waitTx
  {
    if k.Putting? {
      WithoutInserted(r.q.waitTx, p, t);
      assert r'.q.waitTx[p] == t;
    } else {
      WithoutInserted(r.q.waitRx, p, t);
      assert r'.q.waitRx[p] == t;
    }
  }

  /**
   A call that has locked the queue, is in time, and finds that it can go on after all, goes back to the top of
   its loop and does so, whatever interrupts have posted or received meanwhile.
   */
  lemma CallGoesOn(s: State, steps: seq<Step>, r: State, t: Task, mayWait: bool) returns (more: seq<Step>, r': State)
    requires Possible(s, steps) && Run(s, steps) == r
    requires r.locker == {t} && PcOf(r, t).Locked? && CanGoOn(r.q, PcOf(r, t).kind) && !Waits(r, t)
    requires r.q.rxLock >= 0 && r.q.txLock >= 0
    ensures Possible(s, more) && Run(s, more) == r'
    ensures PcOf(r', t) == Outside && r'.locker == {}
    ensures var k := PcOf(r, t).kind;
      r'.q.count == match k
                    case Taking => r.q.count - 1
                    case Peeking => r.q.count
                    case Putting(overwrite) => if overwrite && r.q.count > 0 then r.q.count else r.q.count + 1
  {
    hide Possible, Run, FirstAreWoken;
    UnlockWakesReceivers(r.q, r.q.txLock);
    more, r' := AddStep(s, steps, r, Check(t, false));
    more, r' := AddStep(s, more, r', UnlockTxStep(t));
    UnlockWakesSenders(r'.q, r'.q.rxLock);
    UnlockedStillOut(r.q, r'.q, t);
    var q := r'.q;
    more, r' := AddStep(s, more, r', UnlockRxStep(t));
    UnlockedStillOut(q, r'.q, t);
    more, r' := AddStep(s, more, r', Resume(t));
    hide WakeReceivers, WakeSenders;
    TopCounts(r', t, mayWait);
    more, r' := AddStep(s, more, r', Top(t, mayWait));
  }

  /** Waking tasks from the front puts nobody into a list. */
  lemma UnlockedStillOut(q: Control, r: Control, t: Task)
    requires t !in q.waitRx && t !in q.waitTx
    requires r.waitRx == q.waitRx ||
      (q.txLock >= 0 && FirstAreWoken(q.waitRx, r.waitRx, q.wokenRx, r.wokenRx, q.txLock))
    requires r.waitTx == q.waitTx ||
      (q.rxLock >= 0 && FirstAreWoken(q.waitTx, r.waitTx, q.wokenTx, r.wokenTx, q.rxLock))
    ensures t !in r.waitRx && t !in r.waitTx
  {
  }

  /** A call whose time has run out and that still finds nothing leaves the queue as it was. */
  lemma CallGivesUp(s: State, steps: seq<Step>, r: State, t: Task, k: Kind) returns (more: seq<Step>, r': State)
    requires Possible(s, steps) && Run(s, steps) == r && FindsNothing(r, t, k)
    ensures Possible(s, more) && Run(s, more) == r'
    ensures r' == State(r.q, r.pcs[t := Outside], {})
  {
    hide Possible, Run;
    more, r' := CallLocks(s, steps, r, t, k);
    more, r' := AddStep(s, more, r', Check(t, true));
    more, r' := CallUnlocks(s, more, r', t);
    if !k.Putting? {
      more, r' := AddStep(s, more, r', Look(t));
    }
  }

  /** A receiver or peek whose time has run out looks once more: it takes an item if there is one by then. */
  lemma LateItemIsTaken(r: State, t: Task, mayWait: bool)
    requires r.locker == {} && PcOf(r, t).LastLook? && !PcOf(r, t).kind.Putting? && !Waits(r, t)
    ensures Enabled(r, Look(t))
    ensures r.q.count == 0 ==> PcOf(Perform(r, Look(t)), t) == Outside
    ensures r.q.count > 0 ==>
      && Enabled(Perform(r, Look(t)), Top(t, mayWait))
      && var r' := Perform(Perform(r, Look(t)), Top(t, mayWait));
         PcOf(r', t) == Outside && r'.q.count == r.q.count - if PcOf(r, t).kind == Taking then 1 else 0
  {
  }

  /**
   A send to an empty queue on which receivers wait is received by the first of them: it is woken, and when
   it runs it returns with the item, the others still waiting.
   */
  lemma SendReachesFirst(s: State, steps: seq<Step>, r: State, u: Task, t: Task) returns (more: seq<Step>, r': State)
    requires Possible(s, steps) && Run(s, steps) == r
    requires r.locker == {} && PcOf(r, u) == Outside && !Waits(r, u) && u != t
    requires r.q.count == 0 && r.q.length > 0
    requires r.q.waitRx != [] && r.q.waitRx[0] == t && NoDup(r.q.waitRx) && t !in r.q.waitTx
    requires PcOf(r, t) == AtTop(Taking) && u !in r.q.wokenRx + r.q.wokenTx && t !in r.q.wokenRx + r.q.wokenTx
    ensures Possible(s, more) && Run(s, more) == r'
    ensures r'.q.count == 0 && r'.q.waitRx == r.q.waitRx[1..] && r'.q.wokenRx == r.q.wokenRx
    ensures r'.pcs == r.pcs[u := Outside][t := Outside] && r'.locker == {}
  {
    hide Possible, Run;
    more, r' := AddStep(s, steps, r, Begin(u, Putting(false)));
    more, r' := AddStep(s, more, r', Top(u, true));
    assert t !in r.q.waitRx[1..];
    more, r' := AddStep(s, more, r', Top(t, true));
  }

  /** What the task that has the queue locked can do next. */
  function NextOfLocker(s: State, t: Task): Step
  {
    match PcOf(s, t)
    case Locked(_) => Check(t, true)
    case Observed(_) => Place(t, 0)
    case Unlocking(_, _) => UnlockTxStep(t)
    case _ => if s.q.rxLock != UNLOCKED then UnlockRxStep(t) else Resume(t)
  }

  function StepsToUnlock(s: State, t: Task): nat {
    match PcOf(s, t)
    case Locked(_) => 4
    case Observed(_) => 4
    case Unlocking(_, _) => 3
    case _ => if s.q.rxLock != UNLOCKED then 2 else 1
  }

  lemma LockerStep(s: State, t: Task)
    requires LocksAgree(s) && s.locker == {t}
    ensures Enabled(s, NextOfLocker(s, t))
    ensures var r := Perform(s, NextOfLocker(s, t));
      if r.locker == {} then r.q.rxLock == UNLOCKED == r.q.txLock
      else r.locker == {t} && StepsToUnlock(r, t) < StepsToUnlock(s, t)
  {
    hide WakeReceivers, WakeSenders, InsertAt;
    assert t in s.locker && Holding(PcOf(s, t));
  }

  /** From every reachable state the task that has the queue locked can unlock it and resume the scheduler. */
  lemma {:induction false} LockIsReleased(s: State, t: Task) returns (steps: seq<Step>)
    requires Invariant(s) && s.locker == {t}
    ensures Possible(s, steps) && Run(s, steps).locker == {}
    ensures Run(s, steps).q.rxLock == UNLOCKED == Run(s, steps).q.txLock
    decreases StepsToUnlock(s, t)
  {
    LockerStep(s, t);
    StepKeeps(s, NextOfLocker(s, t));
    hide Invariant, Enabled, Perform, StepsToUnlock, NextOfLocker;
    var r, rest := Perform(s, NextOfLocker(s, t)), [];
    if r.locker != {} {
      rest := LockIsReleased(r, t);
    }
    steps := [NextOfLocker(s, t)] + rest;
    assert steps[1..] == rest;
  }

  lemma FilledByInterrupts() returns (steps: seq<Step>, r: State)
    ensures Possible(Created(2), steps) && Run(Created(2), steps) == r
    ensures r == Created(2).(q := Created(2).q.(count := 2))
  {
    var s := Created(2);
    steps, r := [], s;
    assert Possible(s, steps) && Run(s, steps) == r;
    hide Possible, Run;
    steps, r := AddStep(s, steps, r, IsrPut(false));
    steps, r := AddStep(s, steps, r, IsrPut(false));
  }

  /**
   A run of a new queue of two places: interrupts fill it, two senders block, and the queue is reset.
   One sender still waits, for no reason.
   */
  lemma ResetLosesSender() returns (steps: seq<Step>)
    ensures Possible(Created(2), steps)
    ensures var q := Run(Created(2), steps).q; q.waitTx == [8] && q.count == 0 && !SendersServed(q)
  {
    var s := Created(2);
    hide Possible, Run;
    var r;
    steps, r := FilledByInterrupts();
    steps, r := CallBlocks(s, steps, r, 7, Putting(false), 0);
    steps, r := CallBlocks(s, steps, r, 8, Putting(false), 1);
    assert r.q.waitTx == [7, 8];
    steps, r := AddStep(s, steps, r, ResetStep);
    assert r.q.wokenTx == {7};
  }
}
