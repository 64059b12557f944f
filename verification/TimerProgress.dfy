/** The daemon catches up: from every reachable state its own steps lead to one in which it has nothing to do. */
module TimerProgress {
  import opened TickTime
  import opened SeqLists
  import opened Timers
  import opened TimerDaemon
  import opened TimerRuns

  // ---- How far behind the timers are ----

  function Behind(b: Tm, now: nat): nat {
    if b.last <= now then now - b.last else 0
  }

  /** The time since each timer's last expiry, over all of these timers. */
  ghost function Lag(timers: map<Timer, Tm>, ts: set<Timer>, now: nat): nat
    requires ts <= timers.Keys
    decreases |ts|
  {
    if ts == {} then 0 else
      var t :| t in ts;
      Behind(timers[t], now) + Lag(timers, ts - {t}, now)
  }

  lemma {:induction false} LagSplit(timers: map<Timer, Tm>, ts: set<Timer>, t: Timer, now: nat)
    requires ts <= timers.Keys && t in ts
    ensures Lag(timers, ts, now) == Behind(timers[t], now) + Lag(timers, ts - {t}, now)
    decreases |ts|
  {
    var u :| u in ts && Lag(timers, ts, now) == Behind(timers[u], now) + Lag(timers, ts - {u}, now);
    if u != t {
      LagSplit(timers, ts - {u}, t, now);
      LagSplit(timers, ts - {t}, u, now);
      assert ts - {u} - {t} == ts - {t} - {u};
    }
  }

  lemma {:induction false} LagFrame(before: map<Timer, Tm>, after: map<Timer, Tm>, ts: set<Timer>, now: nat)
    requires ts <= before.Keys && ts <= after.Keys
    requires forall t :: t in ts ==> after[t].last == before[t].last
    ensures Lag(after, ts, now) == Lag(before, ts, now)
    decreases |ts|
  {
    if ts != {} {
      var t :| t in ts;
      LagSplit(before, ts, t, now);
      LagSplit(after, ts, t, now);
      LagFrame(before, after, ts - {t}, now);
    }
  }

  /** A callback brings its timer, and so all of them together, closer to the present. */
  lemma LagOfOne(s: State, r: State, t: Timer)
    requires t in s.timers && r.timers.Keys == s.timers.Keys && r.now == s.now
    requires forall u :: u in s.timers && u != t ==> r.timers[u].last == s.timers[u].last
    requires s.timers[t].last <= r.timers[t].last <= s.now
    ensures Lag(r.timers, r.timers.Keys, r.now) ==
            Lag(s.timers, s.timers.Keys, s.now) - (r.timers[t].last - s.timers[t].last)
  {
    LagSplit(s.timers, s.timers.Keys, t, s.now);
    LagSplit(r.timers, s.timers.Keys, t, s.now);
    LagFrame(s.timers, r.timers, s.timers.Keys - {t}, s.now);
  }

  // ---- One step ----

  /** The time has just been sampled, and every command in the queue is less than a wrap old. */
  ghost predicate Current(s: State) {
    && s.lastTime == s.now
    && forall t :: t in s.timers && s.timers[t].place == Queued ==> s.now - s.timers[t].last < s.modulus
  }

  /** Less to do: timers closer to the present, or as close and fewer commands. */
  ghost predicate Less(r: State, s: State) {
    var a, b := Lag(r.timers, r.timers.Keys, r.now), Lag(s.timers, s.timers.Keys, s.now);
    a < b || (a == b && |r.queue| < |s.queue|)
  }

  lemma SampledSame(s: State)
    requires Agrees(s, Epoch(s.lastTime, s.modulus)) && s.lastTime == s.now
    ensures Sampled(s) == s
  {
    hide Wrap, Epoch, Agrees;
  }

  /** Only t is affected: it has been filed, posted, or left alone, perhaps after its callback. */
  ghost predicate HandledOne(s: State, r: State, t: Timer) {
    && t in s.timers && r.timers.Keys == s.timers.Keys && r.now == s.now && r.lastTime == s.lastTime
    && r.modulus == s.modulus
    && (forall u :: u in s.timers && u != t ==> r.timers[u] == s.timers[u])
    && (r.timers[t].last == s.timers[t].last || r.timers[t].last == Due(s.timers[t]))
    && (r.timers[t].place == Queued ==> r.timers[t].last == Due(s.timers[t]))
  }

  lemma CommandHandled(s: State)
    requires TimerRuns.Invariant(s) && Current(s) && s.queue != []
    ensures Enabled(s, ProcessCommand)
    ensures var r, t := Perform(s, ProcessCommand), s.queue[0].timer;
      && HandledOne(s, r, t) && (r.timers[t].last == s.timers[t].last ==> r.queue == s.queue[1..])
  {
    HeadCommand(s);
    var t, p := s.queue[0].timer, Popped(s);
    PopKeeps(s, Epoch(s.lastTime, s.modulus));
    hide Wrap, Epoch, ListAgrees, QueueAgrees, TimesAgree, Scheduled, NeverEarly, Times, Filed, Agrees;
    SampledSame(p);
    PoppedFields(s);
    StartFields(p, t, s.queue[0].value);
  }

  lemma HeadCommand(s: State)
    requires Agrees(s, Epoch(s.lastTime, s.modulus)) && s.queue != []
    ensures s.queue[0].timer in s.timers && s.timers[s.queue[0].timer].place == Queued
    ensures s.queue[0].value == Wrap(s.timers[s.queue[0].timer].last, s.modulus) && s.queue[0].value < s.modulus
  {
    hide Epoch, ListAgrees, TimesAgree;
  }

  lemma StartFields(s: State, t: Timer, c: nat)
    requires t in s.timers && c < s.modulus && s.timers[t].place == Nowhere
    ensures var r := HandleStart(s, t, c);
      && HandledOne(s, r, t) && (r.timers[t].last == s.timers[t].last ==> r.queue == s.queue || s.timers[t].period == 0)
  {
    hide Wrap, Placed, InsertAt, InsertPos;
  }

  lemma HeadHandled(s: State)
    requires TimerRuns.Invariant(s) && Current(s) && Ready(s)
    ensures Enabled(s, CheckExpired)
    ensures var r, t := Perform(s, CheckExpired), List(s, s.second)[0];
      && HandledOne(s, r, t) && r.timers[t].last == Due(s.timers[t])
      && Due(s.timers[t]) <= s.now < Due(s.timers[t]) + s.modulus
  {
    SampledSame(s);
    HeadIsDue(s);
    hide Epoch, ListAgrees, QueueAgrees, TimesAgree, Scheduled, NeverEarly, Times, Filed, Agrees, HandleExpired, Wrap;
    ExpiredFields(s);
  }

  lemma ExpiredFields(s: State)
    requires List(s, s.second) != [] && List(s, s.second)[0] in s.timers
    requires s.timers[List(s, s.second)[0]].value < s.modulus && s.timers[List(s, s.second)[0]].place.Listed?
    ensures var r, t := HandleExpired(s), List(s, s.second)[0];
      HandledOne(s, r, t) && r.timers[t].last == Due(s.timers[t])
  {
    hide Wrap, Filed, Unlinked;
    var t := List(s, s.second)[0];
    TakenOff(s, t);
    TimerRuns.FiledFields(Fired(Unlinked(s, t), t), t, s.timers[t].value);
    FiledModulus(Fired(Unlinked(s, t), t), t, s.timers[t].value);
  }

  lemma TakenOff(s: State, t: Timer)
    requires t in s.timers && s.timers[t].place.Listed?
    ensures var r := Unlinked(s, t);
      && r.timers == s.timers[t := s.timers[t].(place := Nowhere)]
      && r.modulus == s.modulus && r.now == s.now && r.lastTime == s.lastTime
  {
    hide Without;
  }

  lemma FiledModulus(s: State, t: Timer, c: nat)
    requires t in s.timers && c < s.modulus
    ensures Filed(s, t, c).0.modulus == s.modulus
  {
    hide Wrap, Placed, InsertAt, InsertPos;
  }

  /** What the daemon does next when it is not idle. */
  function NextStep(s: State): Step {
    if s.queue != [] then ProcessCommand else CheckExpired
  }

  lemma NextIsProgress(s: State)
    requires TimerRuns.Invariant(s) && Current(s) && !Idle(s)
    ensures Enabled(s, NextStep(s))
    ensures var r := Perform(s, NextStep(s));
      TimerRuns.Invariant(r) && Current(r) && r.now == s.now && Less(r, s)
  {
    if s.queue != [] {
      CommandHandled(s);
      TimerRuns.StepKeeps(s, ProcessCommand);
      var r, t := Perform(s, ProcessCommand), s.queue[0].timer;
      LastInPast(s, t);
      LastInPast(r, t);
      hide TimerRuns.Invariant, Perform, Enabled;
      OneMoreDone(s, r, t);
    } else {
      NotIdleIsReady(s);
      HeadHandled(s);
      TimerRuns.StepKeeps(s, CheckExpired);
      var r, t := Perform(s, CheckExpired), List(s, s.second)[0];
      LastInPast(s, t);
      hide TimerRuns.Invariant, Perform, Enabled;
      OneMoreDone(s, r, t);
    }
  }

  lemma LastInPast(s: State, t: Timer)
    requires TimerRuns.Invariant(s) && t in s.timers
    ensures s.timers[t].last <= s.now && s.timers[t].period > 0
  {
    hide Wrap, Epoch, ListAgrees, QueueAgrees, Scheduled, NeverEarly;
    assert Timely(s.timers[t], s.modulus, Epoch(s.lastTime, s.modulus), s.second);
  }

  lemma NotIdleIsReady(s: State)
    requires TimerRuns.Invariant(s) && s.lastTime == s.now && s.queue == [] && !Idle(s)
    ensures Ready(s)
  {
    hide Wrap, Epoch, QueueAgrees, TimesAgree, Scheduled, NeverEarly;
    var l := List(s, s.second);
    assert l != [] && l[0] in l;
  }

  lemma OneMoreDone(s: State, r: State, t: Timer)
    requires Current(s) && HandledOne(s, r, t) && s.timers[t].period > 0
    requires s.timers[t].last <= s.now && r.timers[t].last <= s.now
    requires s.now - s.timers[t].last < s.modulus + s.timers[t].period
    requires r.timers[t].last == s.timers[t].last ==> |r.queue| < |s.queue|
    ensures Current(r) && Less(r, s)
  {
    LagOfOne(s, r, t);
    hide Lag;
  }

  /**
   From every state in which the time has just been sampled and the queued commands are less than a wrap old,
   the daemon's own steps lead to one in which the queue is empty and the head is not due, with no time passing.
   */
  lemma {:induction false} CatchesUp(s: State) returns (steps: seq<Step>)
    requires TimerRuns.Invariant(s) && Current(s)
    ensures TimerRuns.Possible(s, steps) && Idle(TimerRuns.Run(s, steps)) && TimerRuns.Run(s, steps).now == s.now
    ensures forall step :: step in steps ==> step == CheckExpired || step == ProcessCommand
    decreases Lag(s.timers, s.timers.Keys, s.now), |s.queue|
  {
    if Idle(s) {
      steps := [];
    } else {
      NextIsProgress(s);
      TimerRuns.StepKeeps(s, NextStep(s));
      hide TimerRuns.Invariant, Perform, Enabled, Idle, Current, Lag;
      var rest := CatchesUp(Perform(s, NextStep(s)));
      steps := [NextStep(s)] + rest;
      assert steps[1..] == rest;
    }
  }
}
