/** The timer service's lists and variables, updated in place by the operations of timers.c. */
module TimerMachine {
  import opened SeqLists
  import opened TickTime
  import T = Timers
  import D = TimerDaemon

  class Service {
    const modulus: Modulus
    var timers: map<T.Timer, T.Tm>
    var first: seq<T.Timer>
    var other: seq<T.Timer>
    var second: bool
    var queue: seq<T.Command>
    var lastTime: nat
    var now: nat
    var log: seq<T.Fire>

    function View(): T.State
      reads this
    {
      T.State(modulus, timers, first, other, second, queue, lastTime, now, log)
    }

    constructor (modulus: Modulus, timers: map<T.Timer, T.Tm>)
      ensures View() == T.State(modulus, timers, [], [], false, [], 0, 0, [])
    {
      this.modulus, this.timers := modulus, timers;
      first, other, second, queue, lastTime, now, log := [], [], false, [], 0, 0, [];
    }

    method Unlink(t: T.Timer)
      requires t in timers
      modifies this
      ensures View() == T.Unlinked(old(View()), t)
    {
      var place := timers[t].place;
      if place.Listed? {
        if place.second {
          other := Without(other, t);
        } else {
          first := Without(first, t);
        }
        timers := timers[t := timers[t].(place := T.Nowhere)];
      }
    }

    /** vListInsert in the given list */
    method InsertIn(t: T.Timer, value: nat, b: bool)
      requires t in timers
      modifies this
      ensures View() == T.Inserted(old(View()), t, value, b)
    {
      if b {
        other := InsertAt(other, InsertPos(T.Values(timers, other), value), t);
      } else {
        first := InsertAt(first, InsertPos(T.Values(timers, first), value), t);
      }
      timers := timers[t := timers[t].(value := value, place := T.Listed(b))];
    }

    method Callback(t: T.Timer)
      requires t in timers
      modifies this
      ensures View() == T.Fired(old(View()), t)
    {
      var time := timers[t].last + timers[t].period;
      log := log + [T.Fire(t, time)];
      timers := timers[t := timers[t].(last := time)];
    }

    /** xTimerGenericCommand with the message accepted */
    method PostStart(t: T.Timer, value: nat)
      requires t in timers
      modifies this
      ensures View() == T.Posted(old(View()), t, value)
    {
      queue := queue + [T.Command(t, value)];
      timers := timers[t := timers[t].(place := T.Queued)];
    }

    /** prvSwitchTimerLists: the loop ends because every turn brings the listed times closer to the wrap. */
    method SwitchTimerLists(ghost epoch: nat)
      requires T.Agrees(View(), epoch)
      modifies this
      ensures View() == D.SwitchLists(old(View()), epoch)
    {
      hide T.Agrees, Wrap, T.Distance, T.Values, T.ExpireHead;
      ghost var s := View();
      while (if second then other else first) != []
        invariant T.Agrees(View(), epoch) && second == s.second && modulus == s.modulus
        invariant T.Expire(View(), epoch) == T.Expire(s, epoch)
        decreases T.Distance(T.Values(timers, if second then other else first), modulus)
      {
        ghost var s1 := View();
        T.HeadIsEarliest(s1, epoch);
        ghost var u := T.Turn(s1, epoch);
        T.TurnDistance(s1, epoch);
        ExpireOne();
      }
      second := !second;
    }

    method ExpireOne()
      requires T.List(View(), second) != [] && T.List(View(), second)[0] in timers
      modifies this
      ensures View() == T.ExpireHead(old(View()))
    {
      hide Wrap, T.Inserted, T.Unlinked;
      var t := (if second then other else first)[0];
      var v := timers[t].value;
      UnlinkedFields(View(), t);
      Unlink(t);
      Callback(t);
      if timers[t].autoReload {
        var reload := Wrap(v + timers[t].period, modulus);
        if reload > v {
          InsertIn(t, reload, second);
        } else {
          PostStart(t, v);
        }
      }
    }

    /** prvSampleTimeNow */
    method SampleTimeNow() returns (switched: bool)
      requires T.Agrees(View(), Epoch(lastTime, modulus))
      modifies this
      ensures View() == D.Sampled(old(View()))
      ensures switched <==> D.TimeWrapped(old(View()))
      ensures old(D.Consistent(View())) && now < old(lastTime) + modulus ==> D.Consistent(View())
    {
      SampleConsistent(View());
      hide T.Agrees, Wrap, Epoch, D.Consistent;
      switched := Wrap(now, modulus) < Wrap(lastTime, modulus);
      if switched {
        ghost var epoch := Epoch(lastTime, modulus);
        T.SwitchIsExact(View(), epoch, 0);
        SwitchTimerLists(epoch);
      }
      lastTime := now;
    }

    /** prvInsertTimerInActiveList, with the sampled time as the present. */
    method InsertTimerInActiveList(t: T.Timer, commandTime: nat) returns (processNow: bool)
      requires t in timers && commandTime < modulus
      modifies this
      ensures (View(), processNow) == D.Filed(old(View()), t, commandTime)
    {
      hide Wrap, T.Inserted;
      processNow := false;
      var period := timers[t].period;
      var expiry, timeNow := Wrap(commandTime + period, modulus), Wrap(lastTime, modulus);
      if expiry <= timeNow {
        var elapsed := if timeNow >= commandTime then timeNow - commandTime else timeNow + modulus - commandTime;
        if elapsed >= period {
          processNow := true;
        } else {
          InsertIn(t, expiry, !second);
        }
      } else {
        if timeNow < commandTime && expiry >= commandTime {
          processNow := true;
        } else {
          InsertIn(t, expiry, second);
        }
      }
    }

    /** prvProcessExpiredTimer */
    method ProcessExpiredTimer()
      requires T.List(View(), second) != [] && T.List(View(), second)[0] in timers
      requires timers[T.List(View(), second)[0]].value < modulus
      modifies this
      ensures View() == D.HandleExpired(old(View()))
      ensures old(HeadDue(View())) ==> D.Consistent(View())
    {
      ExpiredConsistent(View());
      hide Wrap, T.Inserted, T.Unlinked, T.Placed, D.Consistent, HeadDue;
      var t := (if second then other else first)[0];
      var v := timers[t].value;
      UnlinkedFields(View(), t);
      Unlink(t);
      Callback(t);
      if timers[t].autoReload {
        FiledFields(View(), t, v);
        var due := InsertTimerInActiveList(t, v);
        if due {
          PostStart(t, v);
        }
      }
    }

    /** A start command in prvProcessReceivedCommands */
    method StartCommand(t: T.Timer, commandTime: nat)
      requires t in timers && commandTime < modulus
      modifies this
      ensures View() == D.HandleStart(old(View()), t, commandTime)
      ensures old(CommandDue(View(), t, commandTime)) ==> D.Consistent(View())
    {
      StartConsistent(View(), t, commandTime);
      hide Wrap, D.Filed, D.Consistent, CommandDue;
      FiledFields(View(), t, commandTime);
      var due := InsertTimerInActiveList(t, commandTime);
      if due {
        Callback(t);
        if timers[t].autoReload {
          PostStart(t, Wrap(commandTime + timers[t].period, modulus));
        }
      }
    }
  }

  lemma UnlinkedFields(s: T.State, t: T.Timer)
    requires t in s.timers
    ensures var r := T.Unlinked(s, t);
      && r.second == s.second && r.modulus == s.modulus
      && r.timers == s.timers[t := s.timers[t].(
           place := if s.timers[t].place.Listed? then T.Nowhere else s.timers[t].place)]
  {
  }

  lemma FiledFields(s: T.State, t: T.Timer, c: nat)
    requires t in s.timers && c < s.modulus
    ensures var r := D.Filed(s, t, c); t in r.0.timers && (r.1 ==> r.0 == s)
  {
  }

  /** The head of the current list has expired, and the time has just been sampled. */
  ghost predicate HeadDue(s: T.State) {
    D.Consistent(s) && s.lastTime == s.now && D.Ready(s)
  }

  /** The command of t has been taken from the queue, in time, and the time has just been sampled. */
  ghost predicate CommandDue(s: T.State, t: T.Timer, c: nat) {
    && T.Detached(s, t, Epoch(s.lastTime, s.modulus)) && D.Sound(s) && s.lastTime == s.now
    && t in s.timers && c == Wrap(s.timers[t].last, s.modulus)
    && s.timers[t].last <= s.now && D.InTime(s.timers[t].last, s.now, s.timers[t].period, s.modulus)
  }

  lemma SampleConsistent(s: T.State)
    ensures D.Consistent(s) && s.now < s.lastTime + s.modulus ==>
      T.Agrees(s, Epoch(s.lastTime, s.modulus)) && D.Consistent(D.Sampled(s))
  {
    hide T.Agrees, Wrap, Epoch, D.Scheduled, D.NeverEarly;
    if D.Consistent(s) && s.now < s.lastTime + s.modulus {
      D.SampleKeeps(s);
      D.SampleOnSchedule(s);
    }
  }

  lemma ExpiredConsistent(s: T.State)
    ensures HeadDue(s) ==> D.Consistent(D.HandleExpired(s))
  {
    if HeadDue(s) {
      D.ExpiredHandled(s);
    }
  }

  lemma StartConsistent(s: T.State, t: T.Timer, c: nat)
    requires t in s.timers && c < s.modulus
    ensures CommandDue(s, t, c) ==> D.Consistent(D.HandleStart(s, t, c))
  {
    if CommandDue(s, t, c) {
      D.StartHandled(s, t);
    }
  }
}
