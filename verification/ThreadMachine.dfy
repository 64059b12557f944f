/** The operations of gthr_freertos, changing handles, task and event group in place. */
module ThreadMachine {
  import opened ThreadLifecycle

  class Machine {
    var handles: seq<Handle>
    var local: Handle
    var pc: TaskPc
    var user: UserPc
    var started: bool
    var ended: bool
    var storage: bool
    var deletions: nat
    ghost var during: TaskPc
    ghost var misused: bool
    ghost var lateRead: bool

    ghost function View(): State
      reads this
    {
      State(handles, local, pc, user, started, ended, storage, deletions, during, misused, lateRead)
    }

    /** create_thread on the first of the handles: the task and event group exist, and it owns them. */
    constructor (n: nat)
      ensures View() == Initial(n) && Invariant(View())
    {
      InitialInvariant(n);
      hide Invariant;
      handles := [Handle(true, true, true)] + seq(n, i => EMPTY_HANDLE);
      local, pc, user, storage := EMPTY_HANDLE, Created, Free, true;
      started, ended, deletions, during, misused, lateRead := false, false, 0, Created, false, false;
    }

    method UseEvents()
      modifies this`misused
      ensures View() == Used(old(View()))
    {
      ghost var late := deletions > 0;
      misused := misused || late;
    }

    /** vEventGroupDelete */
    method DeleteEvents()
      modifies this
      ensures View() == EventsDeleted(old(View()))
    {
      if deletions > 0 {
        misused := true;
      } else {
        during := pc;
      }
      deletions := deletions + 1;
    }

    /** The copy constructor, in the task routine. */
    method CopyToLocal()
      requires pc == Created && |handles| > 0
      modifies this
      ensures View() == Perform(old(View()), CopyHandle)
      ensures old(Invariant(View())) ==> Invariant(View())
    {
      hide Invariant;
      Kept(View(), CopyHandle);
      local := Handle(handles[0].task, handles[0].events, false);
      pc := Copied;
    }

    /** notify_started, up to its last read of the event group. */
    method SetStarted()
      requires pc == Copied
      modifies this
      ensures View() == Perform(old(View()), NotifyStarted)
      ensures old(Invariant(View())) ==> Invariant(View())
    {
      hide Invariant;
      Kept(View(), NotifyStarted);
      if local.events {
        UseEvents();
      } else {
        misused := true;
      }
      pc, started := Announced, true;
    }

    /** The critical section of notify_joined. */
    method SetJoined()
      requires pc == Finished
      modifies this
      ensures View() == Perform(old(View()), ThreadLifecycle.NotifyJoined)
      ensures old(Invariant(View())) ==> Invariant(View())
    {
      hide Invariant;
      Kept(View(), ThreadLifecycle.NotifyJoined);
      if storage {
        UseEvents();
        ended := true;
      }
      pc := Notified;
    }

    /** The second critical section of the move operations: ownership goes along with the handles. */
    method MoveHandle()
      requires Enabled(View(), EndMove)
      modifies this
      ensures View() == Perform(old(View()), EndMove)
      ensures old(Invariant(View())) ==> Invariant(View())
    {
      hide Invariant;
      Kept(View(), EndMove);
      var from, to := user.from, user.to;
      UseEvents();
      var moved := handles[from];
      handles := handles[to := moved];
      handles := handles[from := Handle(false, false, false)];
      user := Free;
    }

    /** The critical section of detach. */
    method DetachFromTask()
      requires Enabled(View(), DetachTask)
      modifies this
      ensures View() == Perform(old(View()), DetachTask)
      ensures old(Invariant(View())) ==> Invariant(View())
    {
      hide Invariant, Perform, Enabled;
      Kept(View(), DetachTask);
      DetachIs(View());
      var h := user.handle;
      UseEvents();
      user := Detached(h);
      if pc != Deleted {
        storage := false;
        DeleteEvents();
        handles := handles[h := handles[h].(owner := false)];
      }
    }

    /** What operator= does first: the owner deletes the event group, and the task if it is still there. */
    method FreeOwned(h: nat)
      requires h < |handles|
      modifies this
      ensures var s := old(View());
        View() == if s.handles[h].owner
                  then (if s.handles[h].events then EventsDeleted(s) else s).(pc := Deleted)
                  else s
    {
      if handles[h].owner {
        if handles[h].events {
          DeleteEvents();
        }
        if pc != Deleted {
          pc := Deleted;
        }
      }
    }

    /** operator= from an empty handle */
    method AssignEmpty()
      requires Enabled(View(), Release)
      modifies this
      ensures View() == Perform(old(View()), Release)
      ensures old(Invariant(View())) ==> Invariant(View())
    {
      hide Invariant, Perform, Enabled;
      Kept(View(), Release);
      ReleaseIs(View());
      var h := user.handle;
      FreeOwned(h);
      handles := handles[h := Handle(false, false, false)];
      user := if user.Joined? then JoinDone else DetachDone;
    }
  }

  lemma Kept(s: State, step: Step)
    requires Enabled(s, step)
    ensures Invariant(s) ==> Invariant(Perform(s, step))
  {
    if Invariant(s) {
      StepKeeps(s, step);
    }
  }

  lemma ReleaseIs(s: State)
    requires Enabled(s, Release)
    ensures (s.user.Joined? || s.user.Detached?) && s.user.handle < |s.handles| && Perform(s, Release) == Released(s)
  {
  }

  lemma DetachIs(s: State)
    requires Enabled(s, DetachTask)
    ensures s.user.Detaching? && s.user.handle < |s.handles|
    ensures var h, s1 := s.user.handle, Used(s).(user := Detached(s.user.handle));
      Perform(s, DetachTask) == if s.pc == Deleted then s1
      else EventsDeleted(s1).(storage := false, handles := s.handles[h := s.handles[h].(owner := false)])
  {
  }
}
