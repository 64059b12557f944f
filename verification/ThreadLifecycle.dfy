/**
 A std::thread over a FreeRTOS task: the handle that owns the event group, the task routine that works
 on a copy of it, and the one join or detach that ends the ownership, in every interleaving.
 */
module ThreadLifecycle {

  /** gthr_freertos: whether the task and event group handles are set, and _fOwner. */
  datatype Handle = Handle(task: bool, events: bool, owner: bool)

  const EMPTY_HANDLE := Handle(false, false, false)

  /** Where __execute_native_thread_routine is.  `Announced` is inside notify_started, past the set. */
  datatype TaskPc = Created | Copied | Announced | Running | Finished | Notified | Deleted

  /** What the threads using the handles are doing. */
  datatype UserPc =
    | Free
    | Moving(from: nat, to: nat)
    | Joining(handle: nat)
    | Joined(handle: nat)
    | Detaching(handle: nat)
    | Detached(handle: nat)
    | JoinDone
    | DetachDone

  /**
   `started` and `ended` are the two event bits and `storage` the task's pointer to the event group.
   `deletions` counts vEventGroupDelete calls and `during` is where the routine was at the first;
   `misused` and `lateRead` record a use of the event group, and a read of its bits, after that.
   */
  datatype State = State(
    handles: seq<Handle>, local: Handle, pc: TaskPc, user: UserPc,
    started: bool, ended: bool, storage: bool,
    deletions: nat, during: TaskPc, misused: bool, lateRead: bool)

  datatype Step =
    | CopyHandle | NotifyStarted | LeaveNotifyStarted | FunctionReturns | NotifyJoined | DeleteSelf
    | BeginMove(from: nat, to: nat) | EndMove
    | BeginJoin(handle: nat) | EndWait | Release
    | BeginDetach(handle: nat) | DetachTask

  /** create_thread has run on the first handle; the routine was given a pointer to it. */
  function Initial(n: nat): State {
    State([Handle(true, true, true)] + seq(n, i => EMPTY_HANDLE), EMPTY_HANDLE, Created, Free,
          false, false, true, 0, Created, false, false)
  }

  predicate Alive(s: State) {
    s.deletions == 0
  }

  /** Any use of the event group is a misuse once it is deleted. */
  function Used(s: State): State {
    s.(misused := s.misused || !Alive(s))
  }

  function EventsDeleted(s: State): State {
    s.(deletions := s.deletions + 1, during := if Alive(s) then s.pc else s.during, misused := s.misused || !Alive(s))
  }

  predicate Owns(s: State, h: nat) {
    h < |s.handles| && s.handles[h].owner
  }

  predicate Enabled(s: State, step: Step) {
    match step
    case CopyHandle => s.pc == Created && |s.handles| > 0
    case NotifyStarted => s.pc == Copied
    case LeaveNotifyStarted => s.pc == Announced
    case FunctionReturns => s.pc == Running
    case NotifyJoined => s.pc == Finished
    case DeleteSelf => s.pc == Notified
    case BeginMove(from, to) => s.user == Free && Owns(s, from) && to < |s.handles| && from != to
      && !s.handles[to].owner
    case EndMove => s.user.Moving? && s.user.from < |s.handles| && s.user.to < |s.handles| && s.started
    case BeginJoin(h) => s.user == Free && Owns(s, h) && s.handles[h].task
    case EndWait => s.user.Joining? && s.started && s.ended
    case Release => (s.user.Joined? || s.user.Detached?) && s.user.handle < |s.handles|
    case BeginDetach(h) => s.user == Free && Owns(s, h) && s.handles[h].task
    case DetachTask => s.user.Detaching? && s.user.handle < |s.handles| && s.started
  }

  /** operator= from an empty handle, the end of both join and detach. */
  function Released(s: State): State
    requires (s.user.Joined? || s.user.Detached?) && s.user.handle < |s.handles|
  {
    var h := s.user.handle;
    var s1 := if s.handles[h].owner
              then (if s.handles[h].events then EventsDeleted(s) else s).(pc := Deleted)
              else s;
    s1.(handles := s.handles[h := EMPTY_HANDLE], user := if s.user.Joined? then JoinDone else DetachDone)
  }

  function Perform(s: State, step: Step): State
    requires Enabled(s, step)
  {
    match step
    case CopyHandle => s.(pc := Copied, local := s.handles[0].(owner := false))
    case NotifyStarted =>
      var s1 := if s.local.events then Used(s) else s.(misused := true);
      s1.(pc := Announced, started := true)
    case LeaveNotifyStarted => s.(pc := Running, lateRead := s.lateRead || !Alive(s))
    case FunctionReturns => s.(pc := Finished)
    case NotifyJoined => (if s.storage then Used(s).(ended := true) else s).(pc := Notified)
    case DeleteSelf => s.(pc := Deleted)
    case BeginMove(from, to) => s.(user := Moving(from, to))
    case EndMove =>
      var i, j := s.user.from, s.user.to;
      Used(s).(handles := s.handles[j := s.handles[i]][i := EMPTY_HANDLE], user := Free)
    case BeginJoin(h) => s.(user := Joining(h))
    case EndWait => Used(s).(user := Joined(s.user.handle))
    case Release => Released(s)
    case BeginDetach(h) => s.(user := Detaching(h))
    case DetachTask =>
      var h := s.user.handle;
      var s1 := Used(s).(user := Detached(h));
      if s.pc == Deleted then s1
      else EventsDeleted(s1).(storage := false, handles := s.handles[h := s.handles[h].(owner := false)])
  }

  // ---- The invariant ----

  predicate Over(user: UserPc) {
    user.JoinDone? || user.DetachDone?
  }

  /** Before the release there is one owner, and the calls under way are made on it. */
  ghost predicate OneOwner(s: State) {
    && (forall h :: 0 <= h < |s.handles| && s.handles[h].owner ==> s.handles[h] == Handle(true, true, true))
    && (forall h, k :: 0 <= h < k < |s.handles| ==> !(s.handles[h].owner && s.handles[k].owner))
    && (Alive(s) <==> exists h :: 0 <= h < |s.handles| && s.handles[h].owner)
    && match s.user
       case Moving(i, j) => Owns(s, i) && j < |s.handles| && i != j && Alive(s)
       case Joining(h) => Owns(s, h)
       case Joined(h) => Owns(s, h)
       case Detaching(h) => Owns(s, h)
       case Detached(h) => h < |s.handles| && (Alive(s) ==> Owns(s, h))
       case Free => Alive(s)
       case _ => !Alive(s)
  }

  /** The bits, the routine and the deletion come in this order. */
  ghost predicate Ordered(s: State) {
    && (s.started <==> s.pc != Created && s.pc != Copied)
    && (s.ended ==> s.pc == Notified || s.pc == Deleted)
    && (s.storage && (s.pc == Notified || s.pc == Deleted) ==> s.ended)
    && (!s.storage ==> !Alive(s) && (s.user.Detached? || s.user.DetachDone?))
    && s.local == (if s.pc == Created then EMPTY_HANDLE else Handle(true, true, false))
    && (s.pc == Created ==> |s.handles| > 0 && s.handles[0] == Handle(true, true, true))
    && (!Alive(s) ==> s.started)
    && s.deletions <= 1 && !s.misused
    && (s.storage && !Alive(s) ==> s.pc == Notified || s.pc == Deleted)
    && (s.user.Joined? || s.user.JoinDone? ==> s.ended) && (s.user.JoinDone? ==> s.pc == Deleted)
    && (s.user.Detached? && Alive(s) ==> s.pc == Deleted)
    && (s.user.Detached? || s.user.DetachDone? ==> s.started)
    && (!Alive(s) ==> s.user.Detached? || Over(s.user))
  }

  /** The one late access: the read with which xEventGroupSetBits returns, if a detach came in between. */
  ghost predicate LateReadIs(s: State) {
    && (s.lateRead <==> !Alive(s) && s.during == Announced && s.pc != Announced)
    && (!Alive(s) && s.during == Announced ==> s.user.Detached? || s.user.DetachDone?)
    && (!Alive(s) && s.pc == Announced ==> s.during == Announced)
  }

  ghost predicate Invariant(s: State) {
    OneOwner(s) && Ordered(s) && LateReadIs(s)
  }

  lemma InitialInvariant(n: nat)
    ensures Invariant(Initial(n))
  {
    assert Owns(Initial(n), 0);
  }

  lemma TaskStepKeeps(s: State, step: Step)
    requires Invariant(s) && Enabled(s, step)
    requires step.CopyHandle? || step.NotifyStarted? || step.LeaveNotifyStarted? || step.FunctionReturns?
          || step.NotifyJoined? || step.DeleteSelf?
    ensures Invariant(Perform(s, step))
  {
    var r := Perform(s, step);
    assert r.handles == s.handles && r.user == s.user && r.deletions == s.deletions;
  }

  lemma EndMoveKeeps(s: State)
    requires Invariant(s) && Enabled(s, EndMove)
    ensures Invariant(Perform(s, EndMove))
  {
    var r := Perform(s, EndMove);
    assert Owns(r, s.user.to);
  }

  lemma ReleaseKeeps(s: State)
    requires Invariant(s) && Enabled(s, Release)
    ensures Invariant(Perform(s, Release))
  {
    var r := Perform(s, Release);
    forall h | 0 <= h < |r.handles| ensures !r.handles[h].owner {
    }
  }

  lemma DetachKeeps(s: State)
    requires Invariant(s) && Enabled(s, DetachTask)
    ensures Invariant(Perform(s, DetachTask))
  {
    var r := Perform(s, DetachTask);
    if s.pc != Deleted {
      forall h | 0 <= h < |r.handles| ensures !r.handles[h].owner {
      }
    }
  }

  lemma StepKeeps(s: State, step: Step)
    requires Invariant(s) && Enabled(s, step)
    ensures Invariant(Perform(s, step))
  {
    match step
    case EndMove => EndMoveKeeps(s);
    case Release => ReleaseKeeps(s);
    case DetachTask => DetachKeeps(s);
    case BeginMove(_, _) =>
    case BeginJoin(_) =>
    case EndWait =>
    case BeginDetach(_) =>
    case _ => TaskStepKeeps(s, step);
  }

  // ---- Every run ----

  predicate Possible(s: State, steps: seq<Step>)
    decreases |steps|
  {
    steps == [] || (Enabled(s, steps[0]) && Possible(Perform(s, steps[0]), steps[1..]))
  }

  function Run(s: State, steps: seq<Step>): State
    requires Possible(s, steps)
    decreases |steps|
  {
    if steps == [] then s else Run(Perform(s, steps[0]), steps[1..])
  }

  lemma {:induction false} RunKeeps(s: State, steps: seq<Step>)
    requires Invariant(s) && Possible(s, steps)
    ensures Invariant(Run(s, steps))
    decreases |steps|
  {
    hide Invariant, Enabled, Perform;
    if steps != [] {
      StepKeeps(s, steps[0]);
      RunKeeps(Perform(s, steps[0]), steps[1..]);
    }
  }

  /**
   Exactly one handle owns the event group until it is deleted, and none does afterwards; the routine's
   copy has the same task and event group and is never the owner.
   */
  lemma OneOwnerUntilRelease(n: nat, steps: seq<Step>)
    requires Possible(Initial(n), steps)
    ensures var s := Run(Initial(n), steps);
      && (Alive(s) <==> exists h :: Owns(s, h))
      && (forall h, k :: Owns(s, h) && Owns(s, k) ==> h == k)
      && (forall h :: 0 <= h < |s.handles| && s.handles[h].owner ==> s.handles[h] == Handle(true, true, true))
      && s.local == if s.pc == Created then EMPTY_HANDLE else Handle(true, true, false)
  {
    InitialInvariant(n);
    RunKeeps(Initial(n), steps);
    var s := Run(Initial(n), steps);
    if Alive(s) {
      var h :| 0 <= h < |s.handles| && s.handles[h].owner;
      assert Owns(s, h);
    }
  }

  /** The event group is deleted at most once, exactly once by the end of a join or detach, and never misused. */
  lemma DeletedExactlyOnce(n: nat, steps: seq<Step>)
    requires Possible(Initial(n), steps)
    ensures var s := Run(Initial(n), steps);
      s.deletions <= 1 && (Over(s.user) ==> s.deletions == 1) && !s.misused
  {
    InitialInvariant(n);
    RunKeeps(Initial(n), steps);
  }

  /** A join returns only after the user's function has returned, and then the task is gone. */
  lemma JoinWaitsForTheFunction(n: nat, steps: seq<Step>)
    requires Possible(Initial(n), steps)
    ensures var s := Run(Initial(n), steps);
      (s.user.Joined? ==> s.pc == Notified || s.pc == Deleted) && (s.user.JoinDone? ==> s.pc == Deleted)
  {
    InitialInvariant(n);
    RunKeeps(Initial(n), steps);
  }

  /**
   Both event bits are set once the routine has given its notifications, unless a detach took its pointer
   to the event group away before the second; that detach has deleted the event group.
   */
  lemma BitsAreSet(n: nat, steps: seq<Step>)
    requires Possible(Initial(n), steps)
    ensures var s := Run(Initial(n), steps);
      && (s.started <==> s.pc != Created && s.pc != Copied)
      && (s.pc == Notified || s.pc == Deleted ==> s.ended || !s.storage)
      && (!s.storage ==> s.deletions == 1 && (s.user.Detached? || s.user.DetachDone?))
      && (s.ended ==> s.pc == Notified || s.pc == Deleted)
  {
    InitialInvariant(n);
    RunKeeps(Initial(n), steps);
  }

  // ---- Every call can come to its end ----

  /** What the routine does next. */
  function NextOfTask(pc: TaskPc): Step
    requires pc != Deleted
  {
    match pc
    case Created => CopyHandle
    case Copied => NotifyStarted
    case Announced => LeaveNotifyStarted
    case Running => FunctionReturns
    case Finished => NotifyJoined
    case Notified => DeleteSelf
  }

  function ToGo(pc: TaskPc): nat {
    match pc
    case Created => 6
    case Copied => 5
    case Announced => 4
    case Running => 3
    case Finished => 2
    case Notified => 1
    case Deleted => 0
  }

  /** The routine runs to its end by itself, whatever the users of the handles are doing. */
  lemma {:induction false} RoutineEnds(s: State) returns (steps: seq<Step>)
    requires Invariant(s)
    ensures Possible(s, steps)
    ensures var r := Run(s, steps);
      Invariant(r) && r.pc == Deleted && r.user == s.user && r.storage == s.storage && r.handles == s.handles
    decreases ToGo(s.pc)
  {
    if s.pc == Deleted {
      steps := [];
    } else {
      var next := NextOfTask(s.pc);
      StepKeeps(s, next);
      var rest := RoutineEnds(Perform(s, next));
      steps := [next] + rest;
      assert steps[1..] == rest;
    }
  }

  lemma {:induction false} RunConcat(s: State, a: seq<Step>, b: seq<Step>)
    requires Possible(s, a) && Possible(Run(s, a), b)
    ensures Possible(s, a + b) && Run(s, a + b) == Run(Run(s, a), b)
    decreases |a|
  {
    hide Enabled, Perform;
    if a == [] {
      assert a + b == b;
    } else {
      assert (a + b)[1..] == a[1..] + b;
      RunConcat(Perform(s, a[0]), a[1..], b);
    }
  }

  lemma TwoSteps(s: State, first: Step, second: Step)
    requires Enabled(s, first) && Enabled(Perform(s, first), second)
    ensures Possible(s, [first, second]) && Run(s, [first, second]) == Perform(Perform(s, first), second)
  {
    hide Enabled, Perform;
    assert [first, second][1..] == [second] && [second][1..] == [];
    var s1 := Perform(s, first);
    assert Possible(Perform(s1, second), []) && Run(Perform(s1, second), []) == Perform(s1, second);
    assert Possible(s1, [second]) && Run(s1, [second]) == Perform(s1, second);
  }

  /** From every reachable state a join under way can return, with the task and the event group deleted. */
  lemma JoinCanReturn(n: nat, before: seq<Step>) returns (steps: seq<Step>)
    requires Possible(Initial(n), before) && Run(Initial(n), before).user.Joining?
    ensures var s := Run(Initial(n), before);
      && Possible(s, steps)
      && var r := Run(s, steps); r.user == JoinDone && r.deletions == 1 && r.pc == Deleted
  {
    var s := Run(Initial(n), before);
    InitialInvariant(n);
    RunKeeps(Initial(n), before);
    var first := RoutineEnds(s);
    var r := Run(s, first);
    EndAfter(r, EndWait);
    RunConcat(s, first, [EndWait, Release]);
    steps := first + [EndWait, Release];
  }

  /** And a detach. */
  lemma DetachCanReturn(n: nat, before: seq<Step>) returns (steps: seq<Step>)
    requires Possible(Initial(n), before) && Run(Initial(n), before).user.Detaching?
    ensures var s := Run(Initial(n), before);
      && Possible(s, steps)
      && var r := Run(s, steps); r.user == DetachDone && r.deletions == 1
  {
    var s := Run(Initial(n), before);
    InitialInvariant(n);
    RunKeeps(Initial(n), before);
    var first := RoutineEnds(s);
    var r := Run(s, first);
    EndAfter(r, DetachTask);
    RunConcat(s, first, [DetachTask, Release]);
    steps := first + [DetachTask, Release];
  }

  /** And a move, which makes the other handle the one that can be joined. */
  lemma MoveCanReturn(n: nat, before: seq<Step>) returns (steps: seq<Step>)
    requires Possible(Initial(n), before) && Run(Initial(n), before).user.Moving?
    ensures var s := Run(Initial(n), before);
      && Possible(s, steps)
      && var r := Run(s, steps);
         && Enabled(r, BeginJoin(s.user.to)) && !Enabled(r, BeginJoin(s.user.from))
         && s.user.from < |r.handles| && r.handles[s.user.from] == EMPTY_HANDLE
  {
    var s := Run(Initial(n), before);
    InitialInvariant(n);
    RunKeeps(Initial(n), before);
    var first := RoutineEnds(s);
    var r := Run(s, first);
    assert Owns(r, r.user.from);
    assert Possible(Perform(r, EndMove), []) && Run(Perform(r, EndMove), []) == Perform(r, EndMove);
    assert Possible(r, [EndMove]) && Run(r, [EndMove]) == Perform(r, EndMove);
    RunConcat(s, first, [EndMove]);
    steps := first + [EndMove];
  }

  /** With the routine at its end, the wait of a join or detach is over and the release follows. */
  lemma EndAfter(r: State, wait: Step)
    requires Invariant(r) && r.pc == Deleted
    requires (wait == EndWait && r.user.Joining?) || (wait == DetachTask && r.user.Detaching?)
    ensures Possible(r, [wait, Release])
    ensures var e := Run(r, [wait, Release]);
      e.deletions == 1 && e.pc == Deleted && e.user == if wait == EndWait then JoinDone else DetachDone
  {
    var h := r.user.handle;
    assert Owns(r, h) && r.storage && r.ended;
    TwoSteps(r, wait, Release);
  }

  // ---- The read after the deletion ----

  /**
   The last access of notify_started, the read of the bits to return, comes after the deletion only if a
   detach deleted the event group while the routine was still inside notify_started; no join or move does.
   */
  lemma LateReadIsOvertaken(n: nat, steps: seq<Step>)
    requires Possible(Initial(n), steps)
    ensures var s := Run(Initial(n), steps);
      && (s.lateRead <==> s.deletions == 1 && s.during == Announced && s.pc != Announced)
      && (s.lateRead ==> s.user.Detached? || s.user.DetachDone?)
  {
    InitialInvariant(n);
    RunKeeps(Initial(n), steps);
  }

  /** notify_started has returned. */
  predicate PastStart(pc: TaskPc) {
    pc.Running? || pc.Finished? || pc.Notified? || pc.Deleted?
  }

  lemma {:induction false} NeverLate(s: State, steps: seq<Step>)
    requires PastStart(s.pc) && !s.lateRead && Possible(s, steps)
    ensures !Run(s, steps).lateRead
    decreases |steps|
  {
    if steps != [] {
      NeverLate(Perform(s, steps[0]), steps[1..]);
    }
  }

  /** The routine goes on to announce the start, and the detaching thread comes in before its last read. */
  lemma {:induction false} OvertakingRun(s: State, h: nat) returns (steps: seq<Step>)
    requires Invariant(s) && s.user == Detaching(h) && !PastStart(s.pc)
    ensures Possible(s, steps) && Run(s, steps).lateRead
    decreases if s.pc == Created then 2 else if s.pc == Copied then 1 else 0
  {
    if s.pc == Announced {
      steps := [DetachTask, LeaveNotifyStarted];
      var s1 := Perform(s, DetachTask);
      assert Possible(s1, [LeaveNotifyStarted]) && Run(s1, [LeaveNotifyStarted]).lateRead;
      assert steps[1..] == [LeaveNotifyStarted];
    } else {
      var next := if s.pc == Created then CopyHandle else NotifyStarted;
      StepKeeps(s, next);
      var rest := OvertakingRun(Perform(s, next), h);
      steps := [next] + rest;
      assert steps[1..] == rest;
    }
  }

  /** Some way of going on after the call of detach has the late read. */
  ghost predicate CanReadLate(s: State, h: nat)
    requires Enabled(s, BeginDetach(h))
  {
    var s1 := Perform(s, BeginDetach(h));
    exists steps :: Possible(s1, steps) && Run(s1, steps).lateRead
  }

  /** A detach is safe in every continuation exactly when notify_started has returned before the call. */
  lemma DetachIsSafeIff(n: nat, before: seq<Step>, h: nat)
    requires Possible(Initial(n), before)
    requires var s := Run(Initial(n), before); s.user == Free && Owns(s, h)
    ensures var s := Run(Initial(n), before);
      Enabled(s, BeginDetach(h)) && (CanReadLate(s, h) <==> !PastStart(s.pc))
  {
    var s := Run(Initial(n), before);
    InitialInvariant(n);
    RunKeeps(Initial(n), before);
    var s1 := Perform(s, BeginDetach(h));
    StepKeeps(s, BeginDetach(h));
    hide Invariant, Perform, Enabled;
    if PastStart(s.pc) {
      forall steps | Possible(s1, steps) ensures !Run(s1, steps).lateRead {
        NeverLate(s1, steps);
      }
    } else {
      var steps := OvertakingRun(s1, h);
    }
  }

  /** A run in which it does: the detaching thread was waiting for the start and runs as soon as the bit is set. */
  lemma DetachCanComeBetween()
    ensures var steps := [BeginDetach(0), CopyHandle, NotifyStarted, DetachTask, LeaveNotifyStarted, Release];
      Possible(Initial(0), steps) && Run(Initial(0), steps).lateRead && Run(Initial(0), steps).user == DetachDone
  {
    var s0 := Initial(0);
    var s1 := Perform(s0, BeginDetach(0));
    var s2 := Perform(s1, CopyHandle);
    var s3 := Perform(s2, NotifyStarted);
    DetachedBeforeTheRead(s3, 0);
    var rest := [DetachTask, LeaveNotifyStarted, Release];
    assert Run(s2, [NotifyStarted] + rest) == Run(s3, rest);
    assert Run(s1, [CopyHandle, NotifyStarted] + rest) == Run(s3, rest);
  }

  lemma DetachedBeforeTheRead(s: State, h: nat)
    requires s.pc == Announced && s.started && s.user == Detaching(h) && h < |s.handles|
    ensures var steps := [DetachTask, LeaveNotifyStarted, Release];
      Possible(s, steps) && Run(s, steps).lateRead && Run(s, steps).user == DetachDone
  {
    var s1 := Perform(s, DetachTask);
    var s2 := Perform(s1, LeaveNotifyStarted);
    var s3 := Perform(s2, Release);
    assert Run(s3, []) == s3;
    assert Run(s2, [Release]) == s3;
    assert Run(s1, [LeaveNotifyStarted, Release]) == s3;
  }
}
