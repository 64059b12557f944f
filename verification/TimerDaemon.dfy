/** The timer daemon: sampling the time, handling expired timers and commands, and whole runs of it. */
module TimerDaemon {
  import opened Arith
  import opened TickTime
  import opened SeqLists
  import opened Timers

  // ---- Operations ----

  /** prvSwitchTimerLists */
  ghost function SwitchLists(s: State, epoch: nat): State
    requires Agrees(s, epoch)
  {
    Expire(s, epoch).(second := !s.second)
  }

  predicate TimeWrapped(s: State) {
    Wrap(s.now, s.modulus) < Wrap(s.lastTime, s.modulus)
  }

  /** prvSampleTimeNow */
  ghost function Sampled(s: State): State
    requires Agrees(s, Epoch(s.lastTime, s.modulus))
  {
    if TimeWrapped(s) then SwitchLists(s, Epoch(s.lastTime, s.modulus)).(lastTime := s.now) else s.(lastTime := s.now)
  }

  /** Files a timer that was commanded, or last expired, at the wrapped time c; true if it is due already. */
  function Filed(s: State, t: Timer, c: nat): (State, bool)
    requires t in s.timers && c < s.modulus
  {
    var p := s.timers[t].period;
    var e := Wrap(c + p, s.modulus);
    match Placed(c, Wrap(s.lastTime, s.modulus), p, s.modulus)
    case ProcessNow => (s, true)
    case Current => (Inserted(s, t, e, s.second), false)
    case Overflow => (Inserted(s, t, e, !s.second), false)
  }

  /** prvProcessExpiredTimer, for the head of the current list. */
  function HandleExpired(s: State): State
    requires List(s, s.second) != [] && List(s, s.second)[0] in s.timers
    requires s.timers[List(s, s.second)[0]].value < s.modulus
  {
    var t := List(s, s.second)[0];
    var v := s.timers[t].value;
    var s1 := Fired(Unlinked(s, t), t);
    if !s1.timers[t].autoReload then s1
    else
      var r := Filed(s1, t, v);
      if r.1 then Posted(r.0, t, v) else r.0
  }

  /** The command at the head of the queue, taken off it. */
  function Popped(s: State): State
    requires s.queue != [] && s.queue[0].timer in s.timers
  {
    var t := s.queue[0].timer;
    With(s.(queue := s.queue[1..]), t, s.timers[t].(place := Nowhere))
  }

  /** A start command, with the time sampled. */
  function HandleStart(s: State, t: Timer, c: nat): State
    requires t in s.timers && c < s.modulus
  {
    var r := Filed(s, t, c);
    if !r.1 then r.0
    else
      var s1 := Fired(s, t);
      if s.timers[t].autoReload then Posted(s1, t, Wrap(c + s.timers[t].period, s.modulus)) else s1
  }

  /** xTimerStart: posts a command carrying the tick count. */
  function Started(s: State, t: Timer): State
    requires t in s.timers
  {
    Posted(With(s, t, s.timers[t].(last := s.now, started := true, start := s.now, since := |Times(s.log, t)|)),
           t, Wrap(s.now, s.modulus))
  }

  // ---- Steps ----

  datatype Step = Tick | Start(timer: Timer) | CheckExpired | ProcessCommand

  /** Whether the elapsed time's residue tells that a timer last started or expired at `last` is due. */
  predicate InTime(last: nat, now: nat, period: nat, m: Modulus)
    requires last <= now
  {
    now - last < m || period <= Wrap(now - last, m)
  }

  /** The time is sampled within one wrap of the tick count, and each command handled in time. */
  ghost predicate Enabled(s: State, step: Step) {
    match step
    case Tick => true
    case Start(t) => t in s.timers && s.timers[t].place == Nowhere
    case CheckExpired => s.now - s.lastTime < s.modulus
    case ProcessCommand =>
      && s.now - s.lastTime < s.modulus && s.queue != [] && s.queue[0].timer in s.timers
      && s.timers[s.queue[0].timer].last <= s.now
      && InTime(s.timers[s.queue[0].timer].last, s.now, s.timers[s.queue[0].timer].period, s.modulus)
  }

  ghost predicate Ready(s: State) {
    && List(s, s.second) != [] && List(s, s.second)[0] in s.timers
    && s.timers[List(s, s.second)[0]].value <= Wrap(s.now, s.modulus)
  }

  ghost function Perform(s: State, step: Step): State
    requires Consistent(s) && Enabled(s, step)
  {
    hide ListAgrees, QueueAgrees, TimesAgree, Scheduled, NeverEarly, Expire, Filed;
    match step
    case Tick => s.(now := s.now + 1)
    case Start(t) => Started(s, t)
    case CheckExpired =>
      if TimeWrapped(s) || !Ready(s) then Sampled(s)
      else
        HandleExpired(Sampled(s))
    case ProcessCommand =>
      PopKeeps(s, Epoch(s.lastTime, s.modulus));
      SampleKeeps(Popped(s));
      HandleStart(Sampled(Popped(s)), s.queue[0].timer, s.queue[0].value)
  }

  // ---- What each keeps ----

  lemma PopKeeps(s: State, epoch: nat)
    requires Agrees(s, epoch) && s.queue != [] && s.queue[0].timer in s.timers
    ensures Detached(Popped(s), s.queue[0].timer, epoch)
    ensures s.queue[0].value == Wrap(s.timers[s.queue[0].timer].last, s.modulus)
  {
    hide Wrap, Epoch;
    var t, q := s.queue[0].timer, s.queue[1..];
    var x := s.timers[t].(place := Nowhere);
    OtherList(s.timers, s.first, false, t, x);
    OtherList(s.timers, s.other, true, t, x);
    var r := s.timers[t := x];
    forall u | u in r && r[u].place == Queued ensures exists i :: 0 <= i < |q| && q[i].timer == u {
      var i :| 0 <= i < |s.queue| && s.queue[i].timer == u;
      assert q[i - 1].timer == u;
    }
  }

  /** The start, or the expiry before the i-th one of all. */
  function Previous(b: Tm, times: seq<nat>, i: nat): nat
    requires i <= |times|
  {
    if i <= b.since then b.start else times[i - 1]
  }

  /** How often and when a timer has fired since it was started. */
  ghost predicate OnSchedule(b: Tm, times: seq<nat>) {
    && b.since <= |times|
    && (forall i :: b.since <= i < |times| ==> times[i] == Previous(b, times, i) + b.period)
    && b.last == (if |times| == b.since then b.start else times[|times| - 1])
  }

  ghost predicate Scheduled(timers: map<Timer, Tm>, log: seq<Fire>) {
    forall t :: t in timers ==> OnSchedule(timers[t], Times(log, t))
  }

  /** No callback ran before its time. */
  ghost predicate NeverEarly(log: seq<Fire>, now: nat) {
    forall i :: 0 <= i < |log| ==> log[i].time <= now
  }

  ghost predicate Consistent(s: State) {
    && Agrees(s, Epoch(s.lastTime, s.modulus)) && s.lastTime <= s.now
    && Scheduled(s.timers, s.log) && NeverEarly(s.log, s.now)
    && forall t :: t in s.timers ==> s.timers[t].last <= s.now
  }

  lemma NextOnSchedule(b: Tm, times: seq<nat>)
    requires OnSchedule(b, times)
    ensures OnSchedule(b.(last := Due(b)), times + [Due(b)])
  {
    var ts := times + [Due(b)];
    var c := b.(last := Due(b));
    forall i | c.since <= i < |ts| ensures ts[i] == Previous(c, ts, i) + c.period {
      if i < |times| {
        assert ts[i] == times[i] == Previous(b, times, i) + b.period;
      }
    }
  }

  lemma FiredOnSchedule(s: State, t: Timer)
    requires t in s.timers && Scheduled(s.timers, s.log)
    ensures Scheduled(Fired(s, t).timers, Fired(s, t).log)
  {
    hide OnSchedule, Times, Previous;
    var r := Fired(s, t);
    forall u | u in r.timers ensures OnSchedule(r.timers[u], Times(r.log, u)) {
      TimesAppend(s.log, Fire(t, Due(s.timers[t])), u);
      if u == t {
        NextOnSchedule(s.timers[t], Times(s.log, t));
      } else {
        assert Times(s.log, u) + [] == Times(s.log, u);
      }
    }
  }

  /** Only the place and value of timers differ. */
  ghost predicate SameSchedule(before: map<Timer, Tm>, after: map<Timer, Tm>) {
    && after.Keys == before.Keys
    && forall t :: t in before ==> after[t] == before[t].(value := after[t].value, place := after[t].place)
  }

  ghost predicate LastsBelow(before: map<Timer, Tm>, after: map<Timer, Tm>, limit: nat) {
    && after.Keys == before.Keys
    && forall t :: t in before ==> after[t].last <= before[t].last || after[t].last < limit
  }

  lemma SwitchOnSchedule(s: State, epoch: nat)
    requires Agrees(s, epoch) && Scheduled(s.timers, s.log)
    ensures var r := Expire(s, epoch); Scheduled(r.timers, r.log)
    ensures LastsBelow(s.timers, Expire(s, epoch).timers, WrapTime(epoch, s.modulus))
  {
    hide Wrap, Epoch, WrapTime, Agrees, Expire, CaughtUp, Owed, OnSchedule, Times, FiredInOrder;
    SwitchIsExact(s, epoch, 0);
    var r, limit := Expire(s, epoch), WrapTime(epoch, s.modulus);
    forall t | t in s.timers
      ensures OnSchedule(r.timers[t], Times(r.log, t))
        && (r.timers[t].last <= s.timers[t].last || r.timers[t].last < limit)
    {
      if s.timers[t].place == Listed(s.second) {
        DueBeforeWrap(s, t, epoch);
      }
      OneOnSchedule(s.timers[t], s.second, Times(s.log, t), limit, s.modulus);
    }
  }

  lemma OneOnSchedule(b: Tm, second: bool, times: seq<nat>, limit: nat, m: Modulus)
    requires OnSchedule(b, times) && (b.place == Listed(second) ==> b.period > 0 && Due(b) < limit)
    ensures var c := if b.place == Listed(second) && b.period > 0 then CaughtUp(b, limit, m) else b;
      OnSchedule(c, times + Owed(b, second, limit)) && (c.last <= b.last || c.last < limit)
  {
    hide OnSchedule, CaughtUp, Expiries;
    if b.place == Listed(second) {
      CaughtUpOnSchedule(b, times, limit, m);
    } else {
      assert times + [] == times;
    }
  }

  lemma DueBeforeWrap(s: State, t: Timer, epoch: nat)
    requires Agrees(s, epoch) && t in s.timers && s.timers[t].place == Listed(s.second)
    ensures s.timers[t].period > 0 && Due(s.timers[t]) < WrapTime(epoch, s.modulus)
  {
    hide Wrap, Epoch, ListAgrees, QueueAgrees;
    EpochLimit(Due(s.timers[t]), epoch, s.modulus);
  }

  lemma CaughtUpOnSchedule(b: Tm, times: seq<nat>, limit: nat, m: Modulus)
    requires b.period > 0 && Due(b) < limit && OnSchedule(b, times)
    ensures OnSchedule(CaughtUp(b, limit, m), times + Expiries(b.last, b.period, b.autoReload, limit))
    ensures CaughtUp(b, limit, m).last < limit
  {
    var xs := Expiries(b.last, b.period, b.autoReload, limit);
    ExpiriesMeaning(b.last, b.period, b.autoReload, limit);
    var ts := times + xs;
    var c := CaughtUp(b, limit, m);
    forall i | c.since <= i < |ts| ensures ts[i] == Previous(c, ts, i) + c.period {
      if i < |times| {
        assert ts[i] == times[i] == Previous(b, times, i) + b.period;
      } else {
        assert ts[i] == xs[i - |times|];
      }
    }
  }

  /** Sampling within one wrap keeps the lists right for the epoch of the new sample. */
  lemma SampleKeeps(s: State)
    requires Agrees(s, Epoch(s.lastTime, s.modulus)) && s.lastTime <= s.now < s.lastTime + s.modulus
    ensures var r := Sampled(s);
      && Agrees(r, Epoch(s.now, s.modulus)) && r.lastTime == r.now == s.now && r.modulus == s.modulus
      && s.timers.Keys == r.timers.Keys && s.queue <= r.queue
  {
    hide Wrap, Epoch, ListAgrees, QueueAgrees, TimesAgree, WrapTime, Expire, List, OwedFired, FiredInOrder, CaughtUp;
    SampleEpoch(s);
    var epoch := Epoch(s.lastTime, s.modulus);
    if TimeWrapped(s) {
      SwitchIsExact(s, epoch, 0);
      SwitchedAgrees(Expire(s, epoch), epoch);
    }
  }

  lemma SampleEpoch(s: State)
    requires s.lastTime <= s.now < s.lastTime + s.modulus
    ensures Epoch(s.now, s.modulus) == Epoch(s.lastTime, s.modulus) + if TimeWrapped(s) then 1 else 0
  {
    AddWithin(s.lastTime, s.now - s.lastTime, s.modulus);
  }

  /** After the exchange the other list stands for the current epoch. */
  lemma SwitchedAgrees(r: State, epoch: nat)
    requires Agrees(r, epoch) && List(r, r.second) == []
    ensures Agrees(r.(second := !r.second), epoch + 1)
  {
    hide QueueAgrees;
    forall t | t in r.timers ensures Timely(r.timers[t], r.modulus, epoch + 1, !r.second) {
      assert r.timers[t].place == Listed(r.second) ==> t in List(r, r.second);
    }
  }

  lemma SampleOnSchedule(s: State)
    requires Agrees(s, Epoch(s.lastTime, s.modulus)) && s.lastTime <= s.now < s.lastTime + s.modulus
    requires Scheduled(s.timers, s.log) && NeverEarly(s.log, s.now)
    requires forall t :: t in s.timers ==> s.timers[t].last <= s.now
    ensures var r := Sampled(s);
      && Scheduled(r.timers, r.log) && NeverEarly(r.log, s.now)
      && forall t :: t in r.timers ==> r.timers[t].last <= s.now
  {
    hide Wrap, Epoch, Agrees, OnSchedule, WrapTime;
    var epoch := Epoch(s.lastTime, s.modulus);
    if TimeWrapped(s) {
      SwitchIsExact(s, epoch, 0);
      SwitchOnSchedule(s, epoch);
      WrapReached(s.lastTime, s.now, s.modulus);
    }
  }

  lemma WrapReached(last: nat, now: nat, m: Modulus)
    requires last <= now < last + m && Wrap(now, m) < Wrap(last, m)
    ensures WrapTime(Epoch(last, m), m) <= now
  {
    AddWithin(last, now - last, m);
    EpochLimit(now, Epoch(last, m), m);
  }

  // ---- Filing a timer ----

  ghost predicate Sound(s: State) {
    && Scheduled(s.timers, s.log) && NeverEarly(s.log, s.now)
    && forall t :: t in s.timers ==> s.timers[t].last <= s.now
  }

  lemma SameIsSound(s: State, r: State)
    requires Sound(s) && SameSchedule(s.timers, r.timers) && r.log == s.log && r.now == s.now
    ensures Sound(r)
  {
    hide Times;
    forall t | t in r.timers ensures OnSchedule(r.timers[t], Times(r.log, t)) {
      assert OnSchedule(s.timers[t], Times(s.log, t));
    }
  }

  lemma FiredIsSound(s: State, t: Timer)
    requires Sound(s) && t in s.timers && Due(s.timers[t]) <= s.now
    ensures Sound(Fired(s, t))
  {
    FiredOnSchedule(s, t);
    hide Scheduled;
  }

  /** The placement is exact, so the timer goes where its true expiry time belongs. */
  lemma FileKeeps(s: State, t: Timer)
    requires Detached(s, t, Epoch(s.lastTime, s.modulus)) && Sound(s)
    requires s.timers[t].last <= s.lastTime && InTime(s.timers[t].last, s.lastTime, s.timers[t].period, s.modulus)
    ensures Wrap(s.timers[t].last, s.modulus) < s.modulus
    ensures var r := Filed(s, t, Wrap(s.timers[t].last, s.modulus));
      && (r.1 <==> Due(s.timers[t]) <= s.lastTime)
      && (r.1 ==> r.0 == s)
      && (!r.1 ==> Agrees(r.0, Epoch(s.lastTime, s.modulus)) && Sound(r.0)
                   && r.0.lastTime == s.lastTime && r.0.now == s.now && r.0.modulus == s.modulus)
  {
    hide Wrap, Epoch, ListAgrees, QueueAgrees, Sound, InsertAt, InsertPos;
    var b, m := s.timers[t], s.modulus;
    DetachedPeriod(s, t);
    ProcessNowCorrectIff(b.last, s.lastTime, b.period, m);
    if s.lastTime - b.last < m {
      PlacementIsExact(b.last, s.lastTime, b.period, m);
    }
    var e := Wrap(Wrap(b.last, m) + b.period, m);
    match Placed(Wrap(b.last, m), Wrap(s.lastTime, m), b.period, m)
    case ProcessNow =>
    case Current => InsertSound(s, t, e, s.second); Insert(s, t, e, s.second, Epoch(s.lastTime, m));
    case Overflow => InsertSound(s, t, e, !s.second); Insert(s, t, e, !s.second, Epoch(s.lastTime, m));
  }

  lemma DetachedPeriod(s: State, t: Timer)
    requires Detached(s, t, Epoch(s.lastTime, s.modulus))
    ensures 0 < s.timers[t].period < s.modulus
  {
  }

  lemma InsertSound(s: State, t: Timer, value: nat, b: bool)
    requires Sound(s) && t in s.timers
    ensures var r := Inserted(s, t, value, b);
      Sound(r) && r.lastTime == s.lastTime && r.now == s.now && r.modulus == s.modulus
  {
    hide Wrap, Epoch;
    SameIsSound(s, Inserted(s, t, value, b));
  }

  lemma PostKeeps(s: State, t: Timer, value: nat)
    requires Detached(s, t, Epoch(s.lastTime, s.modulus)) && Sound(s) && value == Wrap(s.timers[t].last, s.modulus)
      && s.lastTime <= s.now
    ensures Consistent(Posted(s, t, value))
  {
    hide Wrap, Epoch, Agrees, Sound;
    Post(s, t, value, Epoch(s.lastTime, s.modulus));
    SameIsSound(s, Posted(s, t, value));
    SoundIsConsistent(Posted(s, t, value));
  }

  lemma SoundIsConsistent(s: State)
    ensures Consistent(s) <==> Agrees(s, Epoch(s.lastTime, s.modulus)) && s.lastTime <= s.now && Sound(s)
  {
  }

  lemma StartHandled(s: State, t: Timer)
    requires Detached(s, t, Epoch(s.lastTime, s.modulus)) && Sound(s) && s.lastTime == s.now
    requires s.timers[t].last <= s.now && InTime(s.timers[t].last, s.now, s.timers[t].period, s.modulus)
    ensures Wrap(s.timers[t].last, s.modulus) < s.modulus
      && Consistent(HandleStart(s, t, Wrap(s.timers[t].last, s.modulus)))
  {
    hide Wrap, Epoch, Agrees, Sound, Consistent, Filed;
    SoundLast(s, t);
    FileKeeps(s, t);
    var c := Wrap(s.timers[t].last, s.modulus);
    var r := Filed(s, t, c);
    if r.1 {
      var s1 := Fired(s, t);
      FiredIsSound(s, t);
      FiredKeeps(s, t, Epoch(s.lastTime, s.modulus));
      ReloadInEpoch(s.timers[t].last, s.timers[t].period, s.modulus);
      if s.timers[t].autoReload {
        PostKeeps(s1, t, Wrap(c + s.timers[t].period, s.modulus));
      } else {
        SoundIsConsistent(s1);
      }
    } else {
      SoundIsConsistent(r.0);
    }
  }

  lemma SoundLast(s: State, t: Timer)
    requires Detached(s, t, Epoch(s.lastTime, s.modulus)) && Sound(s)
    ensures s.timers[t].last <= s.now && 0 < s.timers[t].period < s.modulus
  {
  }

  // ---- Steps and runs ----

  /** The head of the current list is due when its value does not exceed the sampled tick count. */
  lemma HeadIsDue(s: State)
    requires Agrees(s, Epoch(s.lastTime, s.modulus)) && s.lastTime == s.now && Ready(s)
    ensures var t := List(s, s.second)[0];
      && s.timers[t].place == Listed(s.second) && s.timers[t].value == Wrap(Due(s.timers[t]), s.modulus)
      && Due(s.timers[t]) <= s.now < Due(s.timers[t]) + s.modulus
  {
    hide QueueAgrees;
    var t := List(s, s.second)[0];
    assert t in List(s, s.second);
    ListedTimely(s, t, Epoch(s.lastTime, s.modulus));
    DivModSum(Due(s.timers[t]), s.modulus);
    DivModSum(s.now, s.modulus);
  }

  lemma ExpiredHandled(s: State)
    requires Agrees(s, Epoch(s.lastTime, s.modulus)) && s.lastTime == s.now && Sound(s) && Ready(s)
    ensures s.timers[List(s, s.second)[0]].value < s.modulus && Consistent(HandleExpired(s))
  {
    hide Wrap, Epoch, ListAgrees, QueueAgrees, TimesAgree, Sound, Filed, Consistent;
    HeadIsDue(s);
    var t := List(s, s.second)[0];
    var s1 := Unlinked(s, t);
    Detach(s, t, Epoch(s.lastTime, s.modulus));
    SameIsSound(s, s1);
    FiredIsSound(s1, t);
    FiredKeeps(s1, t, Epoch(s.lastTime, s.modulus));
    var s2 := Fired(s1, t);
    if s2.timers[t].autoReload {
      FileKeeps(s2, t);
      var r := Filed(s2, t, s.timers[t].value);
      if r.1 {
        PostKeeps(s2, t, s.timers[t].value);
      } else {
        SoundIsConsistent(r.0);
      }
    } else {
      SoundIsConsistent(s2);
    }
  }

  lemma CheckKeeps(s: State)
    requires Consistent(s) && Enabled(s, CheckExpired)
    ensures Consistent(Perform(s, CheckExpired))
  {
    hide Wrap, Epoch, Agrees, Scheduled, NeverEarly, HandleExpired, Expire;
    SampleKeeps(s);
    SampleOnSchedule(s);
    if !TimeWrapped(s) && Ready(s) {
      ExpiredHandled(Sampled(s));
    }
  }

  lemma CommandConsistent(s: State)
    requires Consistent(s) && Enabled(s, ProcessCommand)
    ensures Consistent(Perform(s, ProcessCommand))
  {
    hide Wrap, Epoch, ListAgrees, QueueAgrees, TimesAgree, Scheduled, NeverEarly, HandleStart, Expire, Popped;
    var t, p := s.queue[0].timer, Popped(s);
    PopKeeps(s, Epoch(s.lastTime, s.modulus));
    PoppedFields(s);
    SameIsSound(s, p);
    SampleKeeps(p);
    SampleOnSchedule(p);
    SampleSpares(p, t);
    StartHandled(Sampled(p), t);
  }

  lemma PoppedFields(s: State)
    requires s.queue != [] && s.queue[0].timer in s.timers
    ensures var r := Popped(s);
      && r == s.(queue := r.queue, timers := r.timers) && SameSchedule(s.timers, r.timers)
      && r.timers[s.queue[0].timer] == s.timers[s.queue[0].timer].(place := Nowhere)
  {
  }

  /** Sampling leaves a timer that is in no list as it is. */
  lemma SampleSpares(s: State, t: Timer)
    requires Detached(s, t, Epoch(s.lastTime, s.modulus)) && s.lastTime <= s.now < s.lastTime + s.modulus
    ensures Detached(Sampled(s), t, Epoch(s.now, s.modulus)) && Sampled(s).timers[t] == s.timers[t]
  {
    hide Wrap, Epoch, ListAgrees, QueueAgrees, TimesAgree, WrapTime, Expire;
    SampleKeeps(s);
    if TimeWrapped(s) {
      SwitchIsExact(s, Epoch(s.lastTime, s.modulus), 0);
    }
  }

  lemma StartKeeps(s: State, t: Timer)
    requires Consistent(s) && Enabled(s, Start(t))
    ensures Consistent(Started(s, t))
  {
    hide Wrap, Epoch, ListAgrees, QueueAgrees;
    var epoch := Epoch(s.lastTime, s.modulus);
    var x := s.timers[t].(last := s.now, started := true, start := s.now, since := |Times(s.log, t)|);
    var s1 := With(s, t, x);
    OtherList(s.timers, s.first, false, t, x);
    OtherList(s.timers, s.other, true, t, x);
    OtherQueue(s.timers, s.queue, s.modulus, t, x);
    PostKeeps(s1, t, Wrap(s.now, s.modulus));
  }

  lemma StepConsistent(s: State, step: Step)
    requires Consistent(s) && Enabled(s, step)
    ensures Consistent(Perform(s, step))
  {
    match step
    case Tick =>
    case Start(t) => StartKeeps(s, t);
    case CheckExpired => CheckKeeps(s);
    case ProcessCommand => CommandConsistent(s);
  }
}
