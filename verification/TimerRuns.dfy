/** Whole runs of the timer daemon: every expiry gets its callback, and only one. */
module TimerRuns {
  import opened Arith
  import opened TickTime
  import opened SeqLists
  import opened Timers
  import opened TimerDaemon

  // ---- No started timer is forgotten ----

  /**
   A started auto-reload timer is always in a list or in the queue; a started one-shot timer is until
   it has expired once, and never afterwards.
   */
  ghost predicate Going(b: Tm, times: seq<nat>) {
    if !b.started then b.place == Nowhere
    else if b.autoReload then b.place != Nowhere
    else |times| == b.since + if b.place == Nowhere then 1 else 0
  }

  /** Going, for every timer but perhaps one. */
  ghost predicate OthersGoing(timers: map<Timer, Tm>, log: seq<Fire>, except: set<Timer>) {
    forall t :: t in timers && t !in except ==> Going(timers[t], Times(log, t))
  }

  /** A timer that is not queued was started, and last expired, no later than the last sample. */
  ghost predicate SampledLasts(timers: map<Timer, Tm>, lastTime: nat) {
    forall t :: t in timers && timers[t].place != Queued ==> timers[t].last <= lastTime
  }

  ghost predicate Invariant(s: State) {
    Consistent(s) && OthersGoing(s.timers, s.log, {}) && SampledLasts(s.timers, s.lastTime)
  }

  /** One timer has been dealt with; the rest, and their callbacks, are as they were. */
  ghost predicate OnlyTimer(s: State, r: State, t: Timer) {
    && t in s.timers && t in r.timers && r.timers == s.timers[t := r.timers[t]]
    && forall u :: u != t ==> Times(r.log, u) == Times(s.log, u)
  }

  lemma OneMore(s: State, r: State, t: Timer)
    requires OnlyTimer(s, r, t) && OthersGoing(s.timers, s.log, {t}) && Going(r.timers[t], Times(r.log, t))
    ensures OthersGoing(r.timers, r.log, {})
  {
  }

  lemma FiredTimes(s: State, t: Timer)
    requires t in s.timers
    ensures OnlyTimer(s, Fired(s, t), t)
    ensures Times(Fired(s, t).log, t) == Times(s.log, t) + [Due(s.timers[t])]
  {
    hide Times;
    forall u ensures u != t ==> Times(Fired(s, t).log, u) == Times(s.log, u) {
      TimesAppend(s.log, Fire(t, Due(s.timers[t])), u);
      if u != t {
        assert Times(s.log, u) + [] == Times(s.log, u);
      }
    }
    TimesAppend(s.log, Fire(t, Due(s.timers[t])), t);
  }

  lemma FiledFields(s: State, t: Timer, c: nat)
    requires t in s.timers && c < s.modulus
    ensures var r := Filed(s, t, c);
      && t in r.0.timers && r.0.log == s.log && r.0.lastTime == s.lastTime && r.0.now == s.now
      && r.0.timers == s.timers[t := r.0.timers[t]]
      && (r.1 ==> r.0 == s)
      && (!r.1 ==> r.0.timers[t].place.Listed?)
      && r.0.timers[t] == s.timers[t].(value := r.0.timers[t].value, place := r.0.timers[t].place)
  {
    hide Wrap, Placed;
  }

  /** A switch restarts every reloading timer it fires, and fires a one-shot timer for the first time. */
  lemma SwitchedGoing(b: Tm, second: bool, times: seq<nat>, limit: nat, m: Modulus)
    requires Going(b, times) && (b.place == Listed(second) ==> b.period > 0)
    ensures Going(if b.place == Listed(second) && b.period > 0 then CaughtUp(b, limit, m) else b,
                  times + Owed(b, second, limit))
  {
  }

  lemma SampledGoing(s: State, except: set<Timer>)
    requires Agrees(s, Epoch(s.lastTime, s.modulus)) && s.lastTime <= s.now < s.lastTime + s.modulus
    requires OthersGoing(s.timers, s.log, except)
    ensures OthersGoing(Sampled(s).timers, Sampled(s).log, except)
  {
    hide Wrap, Epoch, Agrees, Going, CaughtUp, Owed, Times, FiredInOrder, WrapTime, Expire;
    if TimeWrapped(s) {
      var epoch := Epoch(s.lastTime, s.modulus);
      SwitchIsExact(s, epoch, 0);
      var r, limit := Expire(s, epoch), WrapTime(epoch, s.modulus);
      forall t | t in r.timers && t !in except ensures Going(r.timers[t], Times(r.log, t)) {
        if s.timers[t].place == Listed(s.second) {
          DueBeforeWrap(s, t, epoch);
        }
        SwitchedGoing(s.timers[t], s.second, Times(s.log, t), limit, s.modulus);
      }
    }
  }

  /** Sampling fires nothing for a timer that is in no list. */
  lemma SampleSparesTimes(s: State, t: Timer)
    requires Detached(s, t, Epoch(s.lastTime, s.modulus)) && s.lastTime <= s.now < s.lastTime + s.modulus
    ensures Times(Sampled(s).log, t) == Times(s.log, t)
  {
    hide Wrap, Epoch, ListAgrees, QueueAgrees, TimesAgree, Times, FiredInOrder, WrapTime, Expire;
    if TimeWrapped(s) {
      SwitchIsExact(s, Epoch(s.lastTime, s.modulus), 0);
      assert Times(s.log, t) + [] == Times(s.log, t);
    }
  }

  // ---- Steps ----

  lemma StartGoing(s: State, t: Timer)
    requires Invariant(s) && Enabled(s, Start(t))
    ensures var r := Started(s, t); OthersGoing(r.timers, r.log, {}) && SampledLasts(r.timers, r.lastTime)
  {
    hide Consistent, Wrap;
    var r := Started(s, t);
    assert r.timers == s.timers[t := r.timers[t]] && r.log == s.log && r.lastTime == s.lastTime;
  }

  lemma ExpiredGoing(s: State)
    requires Agrees(s, Epoch(s.lastTime, s.modulus)) && s.lastTime == s.now && Ready(s)
    requires OthersGoing(s.timers, s.log, {})
    ensures s.timers[List(s, s.second)[0]].value < s.modulus
    ensures var r := HandleExpired(s);
      OthersGoing(r.timers, r.log, {}) && r.lastTime == s.lastTime && r.now == s.now
  {
    hide Wrap, Epoch, Agrees, Filed, Times, Without;
    HeadIsDue(s);
    var t := List(s, s.second)[0];
    var s1, r := Unlinked(s, t), HandleExpired(s);
    assert Going(s.timers[t], Times(s.log, t));
    FiredTimes(s1, t);
    FiledFields(Fired(s1, t), t, s.timers[t].value);
    assert s1.timers == s.timers[t := s.timers[t].(place := Nowhere)] && s1.log == s.log;
    OneMore(s, r, t);
  }

  lemma StartedGoing(s: State, t: Timer, c: nat)
    requires t in s.timers && c < s.modulus
    requires OthersGoing(s.timers, s.log, {t})
    requires s.timers[t].started && s.timers[t].place == Nowhere
    requires !s.timers[t].autoReload ==> |Times(s.log, t)| == s.timers[t].since
    ensures OthersGoing(HandleStart(s, t, c).timers, HandleStart(s, t, c).log, {})
    ensures HandleStart(s, t, c).lastTime == s.lastTime && HandleStart(s, t, c).now == s.now
  {
    hide Wrap, Filed, Times;
    FiredTimes(s, t);
    FiledFields(s, t, c);
    OneMore(s, HandleStart(s, t, c), t);
  }

  /** The timer at the head of the queue was started, and if it is a one-shot it has not expired yet. */
  lemma PoppedGoing(s: State)
    requires Invariant(s) && s.queue != [] && s.queue[0].timer in s.timers
    ensures var t, p := s.queue[0].timer, Popped(s);
      && OthersGoing(p.timers, p.log, {t}) && p.log == s.log && p.now == s.now && p.lastTime == s.lastTime
      && p.timers[t] == s.timers[t].(place := Nowhere)
      && p.timers[t].started && (!p.timers[t].autoReload ==> |Times(s.log, t)| == p.timers[t].since)
  {
    hide ListAgrees, TimesAgree, Scheduled, NeverEarly, Times, Wrap, Epoch;
    var t := s.queue[0].timer;
    assert s.timers[t].place == Queued && Going(s.timers[t], Times(s.log, t));
  }

  lemma CommandGoing(s: State)
    requires Invariant(s) && Enabled(s, ProcessCommand)
    ensures var r := Perform(s, ProcessCommand); OthersGoing(r.timers, r.log, {}) && r.lastTime == r.now
  {
    var t, p := s.queue[0].timer, Popped(s);
    PoppedGoing(s);
    PopKeeps(s, Epoch(s.lastTime, s.modulus));
    CommandConsistent(s);
    hide Invariant, Agrees, Wrap, Epoch, OthersGoing, HandleStart, Sampled, Popped, Times, Consistent;
    SampleKeeps(p);
    SampleSpares(p, t);
    SampledGoing(p, {t});
    SampleSparesTimes(p, t);
    StartedGoing(Sampled(p), t, s.queue[0].value);
  }

  lemma CheckGoing(s: State)
    requires Invariant(s) && Enabled(s, CheckExpired)
    ensures var r := Perform(s, CheckExpired); OthersGoing(r.timers, r.log, {}) && r.lastTime == r.now
  {
    hide Wrap, Epoch, Agrees, Scheduled, NeverEarly, HandleExpired, Expire, OthersGoing;
    SampleKeeps(s);
    SampledGoing(s, {});
    if !TimeWrapped(s) && Ready(s) {
      ExpiredGoing(Sampled(s));
    }
  }

  lemma StepKeeps(s: State, step: Step)
    requires Invariant(s) && Enabled(s, step)
    ensures Invariant(Perform(s, step))
  {
    StepConsistent(s, step);
    hide Agrees, Scheduled, NeverEarly, OthersGoing, Wrap, Epoch;
    match step
    case Tick =>
    case Start(t) => StartGoing(s, t);
    case CheckExpired => CheckGoing(s);
    case ProcessCommand => CommandGoing(s);
  }

  ghost predicate Possible(s: State, steps: seq<Step>)
    requires Invariant(s)
    decreases |steps|
  {
    steps == [] || (Enabled(s, steps[0]) && (StepKeeps(s, steps[0]); Possible(Perform(s, steps[0]), steps[1..])))
  }

  ghost function Run(s: State, steps: seq<Step>): (r: State)
    requires Invariant(s) && Possible(s, steps)
    ensures Invariant(r)
    decreases |steps|
  {
    if steps == [] then s else
      StepKeeps(s, steps[0]);
      Run(Perform(s, steps[0]), steps[1..])
  }

  /** Timers as created, with both lists and the queue empty. */
  ghost predicate Initial(s: State) {
    && s.first == [] && s.other == [] && s.queue == [] && s.log == [] && s.lastTime == 0 && s.now == 0
    && forall t :: t in s.timers ==>
         var b := s.timers[t];
         0 < b.period < s.modulus && b.place == Nowhere && !b.started && b.last == b.start == 0 && b.since == 0
  }

  lemma InitialInvariant(s: State)
    requires Initial(s)
    ensures Invariant(s)
  {
  }

  lemma {:induction false} Progression(b: Tm, times: seq<nat>, k: nat)
    requires OnSchedule(b, times) && b.since + k < |times|
    ensures times[b.since + k] == b.start + (k + 1) * b.period
  {
    if k > 0 {
      Progression(b, times, k - 1);
      assert Previous(b, times, b.since + k) == times[b.since + k - 1];
    }
    Distribute(k, 1, b.period);
  }

  // ---- How many callbacks there are ----

  /** The queue is empty and the head of the current list is not due. */
  ghost predicate Idle(s: State) {
    var l := List(s, s.second);
    s.queue == [] && (l == [] || (l[0] in s.timers && s.timers[l[0]].value > Wrap(s.lastTime, s.modulus)))
  }

  /** A started timer that has an expiry to come: any but a one-shot timer that has expired. */
  predicate Pending(b: Tm, callbacks: nat) {
    b.started && (b.autoReload || callbacks == 0)
  }

  function Callbacks(s: State, t: Timer): int
    requires t in s.timers
  {
    |Times(s.log, t)| - s.timers[t].since
  }

  /** Once the daemon has nothing to do, no expiry up to the sampled time is outstanding. */
  lemma NothingOutstanding(s: State, t: Timer)
    requires Invariant(s) && Idle(s) && t in s.timers
    ensures Callbacks(s, t) >= 0
    ensures Pending(s.timers[t], Callbacks(s, t)) ==> Due(s.timers[t]) > s.lastTime
  {
    hide Wrap, Epoch, NeverEarly, Times, ListAgrees, QueueAgrees, TimesAgree;
    assert OnSchedule(s.timers[t], Times(s.log, t)) && Going(s.timers[t], Times(s.log, t));
    if Pending(s.timers[t], Callbacks(s, t)) {
      ListedIsLater(s, t);
    }
  }

  lemma ListedIsLater(s: State, t: Timer)
    requires Agrees(s, Epoch(s.lastTime, s.modulus)) && Idle(s) && t in s.timers && s.timers[t].place != Nowhere
    ensures Due(s.timers[t]) > s.lastTime
  {
    hide Wrap, Epoch;
    var l, epoch, m := List(s, s.second), Epoch(s.lastTime, s.modulus), s.modulus;
    ListedTimely(s, t, epoch);
    assert s.timers[t].place != Queued;
    if s.timers[t].place == Listed(s.second) {
      assert t in l;
      HeadIsEarliest(s, epoch);
      ListedTimely(s, l[0], epoch);
      hide Agrees;
      LaterInEpoch(Due(s.timers[l[0]]), s.lastTime, m);
    } else {
      hide Agrees;
      LaterEpoch(Due(s.timers[t]), s.lastTime, m);
    }
  }

  /** Between the n-th expiry and the next, n whole periods have gone by. */
  lemma WholePeriods(n: nat, start: nat, last: nat, period: nat, time: nat)
    requires period > 0 && last == start + n * period && last <= time < last + period
    ensures start <= time && (time - start) / period == n
  {
    MulNonNegative(n, period);
    DivModUnique(time - start, n, time - last, period);
  }

  /** Since the n-th expiry, at least n whole periods have gone by. */
  lemma AtLeastPeriods(n: nat, start: nat, last: nat, period: nat, time: nat)
    requires period > 0 && last == start + n * period && last <= time
    ensures start <= time && n <= (time - start) / period
  {
    MulNonNegative(n, period);
    var extra := time - last;
    DivModSum(extra, period);
    Distribute(n, extra / period, period);
    DivModUnique(time - start, n + extra / period, extra % period, period);
  }

  /** The last expiry of a timer, by the number of its callbacks. */
  lemma LastExpiry(b: Tm, times: seq<nat>)
    requires OnSchedule(b, times)
    ensures b.last == b.start + (|times| - b.since) * b.period
  {
    var n := |times| - b.since;
    assert b.last == if n == 0 then b.start else times[|times| - 1];
    hide OnSchedule;
    if n > 0 {
      Progression(b, times, n - 1);
    }
  }

  /**
   Whenever the daemon has nothing to do, a timer started at C has had one callback for each of C + P,
   C + 2 * P, ... up to the sampled time if it reloads, and one exactly if C + P has come if it does not.
   */
  lemma EveryExpiryOnce(s: State, t: Timer)
    requires Invariant(s) && Idle(s) && t in s.timers && s.timers[t].started
    ensures var b := s.timers[t];
      && b.start <= s.lastTime && b.period > 0
      && Callbacks(s, t) == if b.autoReload then (s.lastTime - b.start) / b.period
                            else if b.start + b.period <= s.lastTime then 1 else 0
  {
    hide Invariant, Idle, Times, OnSchedule, Going;
    NothingOutstanding(s, t);
    IdleFacts(s, t);
    var b, times, n := s.timers[t], Times(s.log, t), Callbacks(s, t);
    LastExpiry(b, times);
    if b.autoReload {
      WholePeriods(n, b.start, b.last, b.period, s.lastTime);
    } else {
      OneShotCount(b, times);
      AtLeastPeriods(n, b.start, b.last, b.period, s.lastTime);
    }
  }

  lemma OneShotCount(b: Tm, times: seq<nat>)
    requires Going(b, times) && OnSchedule(b, times) && b.started && !b.autoReload
    ensures 0 <= |times| - b.since <= 1
  {
  }

  lemma IdleFacts(s: State, t: Timer)
    requires Invariant(s) && Idle(s) && t in s.timers
    ensures var b, times := s.timers[t], Times(s.log, t);
      b.last <= s.lastTime && b.period > 0 && OnSchedule(b, times) && Going(b, times) && b.since <= |times|
  {
    hide Wrap, Epoch, NeverEarly, ListAgrees, Times;
    assert Timely(s.timers[t], s.modulus, Epoch(s.lastTime, s.modulus), s.second);
    assert Going(s.timers[t], Times(s.log, t));
  }

  /** At any moment no more callbacks have run than expiries have come. */
  lemma NeverTooMany(s: State, t: Timer)
    requires Invariant(s) && t in s.timers && s.timers[t].started
    ensures var b := s.timers[t];
      && b.start <= s.now && b.period > 0
      && 0 <= Callbacks(s, t) <= (s.now - b.start) / b.period && (!b.autoReload ==> Callbacks(s, t) <= 1)
  {
    hide Invariant, Times, OnSchedule, Going;
    SoonFacts(s, t);
    var b, times, n := s.timers[t], Times(s.log, t), Callbacks(s, t);
    LastExpiry(b, times);
    AtLeastPeriods(n, b.start, b.last, b.period, s.now);
    if !b.autoReload {
      OneShotCount(b, times);
    }
  }

  lemma SoonFacts(s: State, t: Timer)
    requires Invariant(s) && t in s.timers
    ensures NeverEarly(s.log, s.now)
    ensures var b, times := s.timers[t], Times(s.log, t);
      b.last <= s.now && b.period > 0 && OnSchedule(b, times) && Going(b, times) && b.since <= |times|
  {
    hide Wrap, Epoch, NeverEarly, ListAgrees, QueueAgrees, Times;
    assert Timely(s.timers[t], s.modulus, Epoch(s.lastTime, s.modulus), s.second);
    assert Going(s.timers[t], Times(s.log, t));
  }

  /**
   However late the daemon runs: the k-th callback since a timer was started at C is for C + k * P and
   not made before it, there are never more of them than expiries that have come, and whenever the daemon
   has nothing to do there are exactly as many as expiries up to the sampled time.
   */
  lemma CallbacksAreExact(s: State, steps: seq<Step>, t: Timer)
    requires Initial(s)
    requires (InitialInvariant(s); Possible(s, steps))
    ensures var r := (InitialInvariant(s); Run(s, steps));
      t in r.timers && r.timers[t].started ==>
        var b, n := r.timers[t], Callbacks(r, t);
        && b.start <= r.now && b.period > 0 && 0 <= n <= (r.now - b.start) / b.period
        && (forall k :: 0 <= k < n ==> CallbackOnTime(r, t, k))
        && (Idle(r) ==>
              b.start <= r.lastTime &&
              n == if b.autoReload then (r.lastTime - b.start) / b.period
                   else if b.start + b.period <= r.lastTime then 1 else 0)
  {
    hide Invariant, Possible, Perform, Idle, CallbackOnTime;
    InitialInvariant(s);
    var r := Run(s, steps);
    if t in r.timers && r.timers[t].started {
      NeverTooMany(r, t);
      if Idle(r) {
        EveryExpiryOnce(r, t);
      }
      forall k | 0 <= k < Callbacks(r, t) ensures CallbackOnTime(r, t, k) {
        CallbackTime(r, t, k);
      }
    }
  }

  /** The callback with index k is for the (k + 1)-th expiry, and that has come. */
  ghost predicate CallbackOnTime(r: State, t: Timer, k: nat)
    requires t in r.timers
  {
    var b, times := r.timers[t], Times(r.log, t);
    b.since + k < |times| && times[b.since + k] == b.start + (k + 1) * b.period && times[b.since + k] <= r.now
  }

  lemma CallbackTime(r: State, t: Timer, k: nat)
    requires Invariant(r) && t in r.timers && k < Callbacks(r, t)
    ensures CallbackOnTime(r, t, k)
  {
    hide Invariant, Times, OnSchedule, Going, NeverEarly;
    SoonFacts(r, t);
    Progression(r.timers[t], Times(r.log, t), k);
    TimesBelow(r.log, t, r.now, r.timers[t].since + k);
  }

  lemma {:induction false} TimesBelow(log: seq<Fire>, t: Timer, now: nat, i: nat)
    requires NeverEarly(log, now) && i < |Times(log, t)|
    ensures Times(log, t)[i] <= now
  {
    var front := log[..|log| - 1];
    if i < |Times(front, t)| {
      TimesBelow(front, t, now, i);
    }
  }

  // ---- Commands handled too late ----

  /** A command is decided rightly exactly when it is handled in time; otherwise a due timer is filed. */
  lemma FiledRightlyIff(s: State, t: Timer)
    requires Detached(s, t, Epoch(s.lastTime, s.modulus)) && s.timers[t].last <= s.lastTime
    ensures Wrap(s.timers[t].last, s.modulus) < s.modulus
    ensures (Filed(s, t, Wrap(s.timers[t].last, s.modulus)).1 <==> Due(s.timers[t]) <= s.lastTime)
            <==> InTime(s.timers[t].last, s.lastTime, s.timers[t].period, s.modulus)
  {
    hide Wrap, Epoch, ListAgrees, QueueAgrees;
    DetachedPeriod(s, t);
    ProcessNowCorrectIff(s.timers[t].last, s.lastTime, s.timers[t].period, s.modulus);
  }

  lemma LaterInEpoch(x: nat, y: nat, m: Modulus)
    requires Epoch(x, m) == Epoch(y, m) && Wrap(x, m) > Wrap(y, m)
    ensures x > y
  {
    DivModSum(x, m);
    DivModSum(y, m);
  }

  lemma LaterEpoch(x: nat, y: nat, m: Modulus)
    requires Epoch(x, m) > Epoch(y, m)
    ensures x > y
  {
    EpochLimit(y, Epoch(y, m), m);
    EpochLimit(x, Epoch(y, m), m);
  }
}
