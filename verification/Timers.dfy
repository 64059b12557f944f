/**
 Software timers: two lists of expiry times, one for the current tick epoch and one for the next, and
 a daemon that may run arbitrarily late.  Times are wrapped tick counts; `last`, `now` and `lastTime`
 are their unbounded counterparts, with which the daemon's decisions are compared.
 */
module Timers {
  import opened Arith
  import opened TickTime
  import opened SeqLists

  type Timer = nat

  /** In a list, in the command queue, or in neither. */
  datatype Place = Nowhere | Listed(second: bool) | Queued

  /**
   `value` is the item value, the wrapped expiry time.  `last` is when the timer was started or last
   expired; `started` and `start` are whether and when it was started, and `since` how often it had
   expired by then.
   */
  datatype Tm = Tm(
    period: nat, autoReload: bool, value: nat, place: Place,
    last: nat, started: bool, start: nat, since: nat)

  datatype Command = Command(timer: Timer, value: nat)

  datatype Fire = Fire(timer: Timer, time: nat)

  /** `second` tells which list pxCurrentTimerList points to; `lastTime` is the last sampled time. */
  datatype State = State(
    modulus: Modulus, timers: map<Timer, Tm>, first: seq<Timer>, other: seq<Timer>, second: bool,
    queue: seq<Command>, lastTime: nat, now: nat, log: seq<Fire>)

  function List(s: State, b: bool): seq<Timer> {
    if b then s.other else s.first
  }

  function SetList(s: State, b: bool, l: seq<Timer>): State {
    if b then s.(other := l) else s.(first := l)
  }

  function Values(timers: map<Timer, Tm>, l: seq<Timer>): (v: seq<nat>)
    ensures |v| == |l|
  {
    seq(|l|, i requires 0 <= i < |l| => if l[i] in timers then timers[l[i]].value else 0)
  }

  function With(s: State, t: Timer, b: Tm): State {
    s.(timers := s.timers[t := b])
  }

  // ---- The placement decision ----

  datatype Placement = ProcessNow | Current | Overflow

  /** prvInsertTimerInActiveList: where a timer of this period goes, commanded at c and handled at n. */
  function Placed(c: nat, n: nat, period: nat, m: Modulus): Placement
    requires c < m
  {
    var e := Wrap(c + period, m);
    if e <= n then if Elapsed(n, c, m) >= period then ProcessNow else Overflow
    else if n < c && e >= c then ProcessNow else Current
  }

  /** The decision, on every command time and every present: only the elapsed time's residue matters. */
  lemma ProcessNowIff(C: nat, N: nat, period: nat, m: Modulus)
    requires C <= N && 0 < period < m
    ensures Placed(Wrap(C, m), Wrap(N, m), period, m) == ProcessNow <==> period <= Wrap(N - C, m)
  {
    ElapsedIs(C, N, m);
    AddWithin(C, period, m);
    var c := Wrap(C, m);
    AddWithin(c, period, m);
    DivModUnique(c, 0, c, m);
  }

  /** Hence it is the right decision exactly when less than one wrap has passed, or enough residue. */
  lemma ProcessNowCorrectIff(C: nat, N: nat, period: nat, m: Modulus)
    requires C <= N && 0 < period < m
    ensures (Placed(Wrap(C, m), Wrap(N, m), period, m) == ProcessNow <==> C + period <= N)
            <==> N - C < m || period <= Wrap(N - C, m)
  {
    ProcessNowIff(C, N, period, m);
    if N - C < m {
      DivModUnique(N - C, 0, N - C, m);
    }
  }

  /** Handled one wrap late, a timer that is long due is filed as if it had just been started. */
  lemma MisplacedAfterAWrap(period: nat, m: Modulus)
    requires 0 < period < m
    ensures 0 + period <= m && Placed(Wrap(0, m), Wrap(m, m), period, m) == Current
  {
    DivModUnique(m, 1, 0, m);
    DivModUnique(period, 0, period, m);
    ProcessNowIff(0, m, period, m);
  }

  /** Within one wrap the placement is exact: expired, this epoch's list, or the next epoch's list. */
  lemma PlacementIsExact(C: nat, N: nat, period: nat, m: Modulus)
    requires C <= N && N - C < m && 0 < period < m
    ensures match Placed(Wrap(C, m), Wrap(N, m), period, m)
            case ProcessNow => C + period <= N
            case Current => N < C + period && Epoch(C + period, m) == Epoch(N, m)
            case Overflow => N < C + period && Epoch(C + period, m) == Epoch(N, m) + 1
    ensures Wrap(Wrap(C, m) + period, m) == Wrap(C + period, m)
  {
    ProcessNowCorrectIff(C, N, period, m);
    AddWithin(C, period, m);
    AddWithin(Wrap(C, m), period, m);
    DivModUnique(Wrap(C, m), 0, Wrap(C, m), m);
    if N < C + period {
      AddWithin(N, C + period - N, m);
    }
  }

  // ---- The operations ----

  /** The callback runs for the timer's expiry time. */
  function Fired(s: State, t: Timer): State
    requires t in s.timers
  {
    var b := s.timers[t];
    With(s, t, b.(last := b.last + b.period)).(log := s.log + [Fire(t, b.last + b.period)])
  }

  function Unlinked(s: State, t: Timer): State
    requires t in s.timers
  {
    var b := s.timers[t];
    if b.place.Listed?
    then With(SetList(s, b.place.second, Without(List(s, b.place.second), t)), t, b.(place := Nowhere))
    else s
  }

  /** vListInsert with the given expiry time. */
  function Inserted(s: State, t: Timer, value: nat, b: bool): State
    requires t in s.timers
  {
    var l := List(s, b);
    With(SetList(s, b, InsertAt(l, InsertPos(Values(s.timers, l), value), t)), t,
         s.timers[t].(value := value, place := Listed(b)))
  }

  function Posted(s: State, t: Timer, value: nat): State
    requires t in s.timers
  {
    With(s, t, s.timers[t].(place := Queued)).(queue := s.queue + [Command(t, value)])
  }

  /** One turn of the loop in prvSwitchTimerLists. */
  function ExpireHead(s: State): State
    requires List(s, s.second) != [] && List(s, s.second)[0] in s.timers
  {
    var t := List(s, s.second)[0];
    var v := s.timers[t].value;
    var s1 := Fired(Unlinked(s, t), t);
    var reload := Wrap(v + s.timers[t].period, s.modulus);
    if !s.timers[t].autoReload then s1
    else if reload > v then Inserted(s1, t, reload, s.second)
    else Posted(s1, t, v)
  }

  /** What is left for the loop to do: the distance to the wrap, over all listed expiry times. */
  function Distance(v: seq<nat>, m: nat): nat {
    if v == [] then 0 else (if v[0] < m then m - v[0] else 0) + Distance(v[1..], m)
  }

  lemma DistanceInsert(v: seq<nat>, p: nat, x: nat, m: nat)
    requires p <= |v|
    ensures Distance(InsertAt(v, p, x), m) == Distance(v, m) + (if x < m then m - x else 0)
  {
    if p > 0 {
      DistanceInsert(v[1..], p - 1, x, m);
      assert InsertAt(v, p, x)[1..] == InsertAt(v[1..], p - 1, x);
    } else {
      assert InsertAt(v, 0, x)[1..] == v;
    }
  }

  // ---- The lists ----

  /** A list holds exactly the timers whose place it is, in order of expiry time. */
  ghost predicate ListAgrees(timers: map<Timer, Tm>, l: seq<Timer>, b: bool) {
    && NoDup(l) && Ascending(Values(timers, l))
    && forall t :: t in l <==> t in timers && timers[t].place == Listed(b)
  }

  /** The queue holds one restart command for each queued timer, carrying its last expiry. */
  ghost predicate QueueAgrees(timers: map<Timer, Tm>, queue: seq<Command>, m: Modulus) {
    && (forall i :: 0 <= i < |queue| ==>
          queue[i].timer in timers && timers[queue[i].timer].place == Queued
          && queue[i].value == Wrap(timers[queue[i].timer].last, m))
    && (forall i, j :: 0 <= i < j < |queue| ==> queue[i].timer != queue[j].timer)
    && (forall t :: t in timers && timers[t].place == Queued ==> exists i :: 0 <= i < |queue| && queue[i].timer == t)
  }

  /** In unbounded time: a listed timer's expiry is in the epoch its list stands for. */
  ghost predicate Timely(b: Tm, m: Modulus, epoch: nat, second: bool) {
    && 0 < b.period < m
    && (b.place.Listed? ==>
          && b.value == Wrap(b.last + b.period, m)
          && Epoch(b.last + b.period, m) == if b.place.second == second then epoch else epoch + 1)
  }

  ghost predicate TimesAgree(timers: map<Timer, Tm>, m: Modulus, epoch: nat, second: bool) {
    forall t :: t in timers ==> Timely(timers[t], m, epoch, second)
  }

  ghost predicate Agrees(s: State, epoch: nat) {
    && ListAgrees(s.timers, s.first, false) && ListAgrees(s.timers, s.other, true)
    && QueueAgrees(s.timers, s.queue, s.modulus)
    && TimesAgree(s.timers, s.modulus, epoch, s.second)
  }

  // ---- What the list moves keep ----

  lemma SameValues(timers: map<Timer, Tm>, l: seq<Timer>, t: Timer, b: Tm)
    requires t !in l || (t in timers && b.value == timers[t].value)
    ensures Values(timers[t := b], l) == Values(timers, l)
  {
  }

  lemma OtherList(timers: map<Timer, Tm>, l: seq<Timer>, b: bool, t: Timer, x: Tm)
    requires ListAgrees(timers, l, b) && t in timers && timers[t].place != Listed(b) && x.place != Listed(b)
    ensures ListAgrees(timers[t := x], l, b)
  {
    SameValues(timers, l, t, x);
  }

  lemma OtherQueue(timers: map<Timer, Tm>, queue: seq<Command>, m: Modulus, t: Timer, x: Tm)
    requires QueueAgrees(timers, queue, m) && t in timers && timers[t].place != Queued && x.place != Queued
    ensures QueueAgrees(timers[t := x], queue, m)
  {
  }

  lemma ValuesWithout(timers: map<Timer, Tm>, l: seq<Timer>, t: Timer)
    requires Ascending(Values(timers, l))
    ensures Ascending(Values(timers, Without(l, t)))
  {
    hide Without, IndexOf;
    var r, v := Without(l, t), Values(timers, l);
    forall i, j | 0 <= i < j < |r| ensures Values(timers, r)[i] <= Values(timers, r)[j] {
      WithoutAt(l, t, i);
      WithoutAt(l, t, j);
      assert v[Source(l, t, i)] <= v[Source(l, t, j)];
    }
  }

  lemma RemovedFromList(timers: map<Timer, Tm>, l: seq<Timer>, b: bool, t: Timer, x: Tm)
    requires ListAgrees(timers, l, b) && t in timers && x.place != Listed(b)
    ensures ListAgrees(timers[t := x], Without(l, t), b)
  {
    WithoutMembers(l, t);
    ValuesWithout(timers, l, t);
    SameValues(timers, Without(l, t), t, x);
  }

  lemma AddedToList(timers: map<Timer, Tm>, l: seq<Timer>, b: bool, t: Timer, x: Tm)
    requires ListAgrees(timers, l, b) && t in timers && timers[t].place != Listed(b) && x.place == Listed(b)
    ensures ListAgrees(timers[t := x], InsertAt(l, InsertPos(Values(timers, l), x.value), t), b)
  {
    hide Values, InsertAt, InsertPos;
    var v := Values(timers, l);
    var p := InsertPos(v, x.value);
    InsertAtMembers(l, p, t);
    InsertKeepsOrder(v, x.value);
    ValuesInsert(timers, l, p, t, x);
  }

  lemma ValuesInsert(timers: map<Timer, Tm>, l: seq<Timer>, p: nat, t: Timer, x: Tm)
    requires p <= |l| && t !in l
    ensures Values(timers[t := x], InsertAt(l, p, t)) == InsertAt(Values(timers, l), p, x.value)
  {
  }

  /** Detached: in no list and not in the queue. */
  ghost predicate Detached(s: State, t: Timer, epoch: nat) {
    Agrees(s, epoch) && t in s.timers && s.timers[t].place == Nowhere
  }

  lemma Detach(s: State, t: Timer, epoch: nat)
    requires Agrees(s, epoch) && t in s.timers && s.timers[t].place.Listed?
    ensures Detached(Unlinked(s, t), t, epoch)
    ensures Unlinked(s, t) == SetList(s, s.timers[t].place.second, Without(List(s, s.timers[t].place.second), t))
                                .(timers := s.timers[t := s.timers[t].(place := Nowhere)])
  {
    hide Wrap, Epoch, ListAgrees, QueueAgrees, Without;
    var x := s.timers[t].(place := Nowhere);
    var b := s.timers[t].place.second;
    RemovedFromList(s.timers, List(s, b), b, t, x);
    OtherList(s.timers, List(s, !b), !b, t, x);
    OtherQueue(s.timers, s.queue, s.modulus, t, x);
  }

  lemma FiredKeeps(s: State, t: Timer, epoch: nat)
    requires Detached(s, t, epoch)
    ensures Detached(Fired(s, t), t, epoch)
  {
    hide Wrap, Epoch, ListAgrees, QueueAgrees;
    var x := s.timers[t].(last := s.timers[t].last + s.timers[t].period);
    OtherList(s.timers, s.first, false, t, x);
    OtherList(s.timers, s.other, true, t, x);
    OtherQueue(s.timers, s.queue, s.modulus, t, x);
  }

  lemma Insert(s: State, t: Timer, value: nat, b: bool, epoch: nat)
    requires Detached(s, t, epoch)
    requires Timely(s.timers[t].(value := value, place := Listed(b)), s.modulus, epoch, s.second)
    ensures Agrees(Inserted(s, t, value, b), epoch)
  {
    hide Wrap, Epoch, ListAgrees, QueueAgrees, InsertAt, InsertPos;
    var x := s.timers[t].(value := value, place := Listed(b));
    AddedToList(s.timers, List(s, b), b, t, x);
    OtherList(s.timers, List(s, !b), !b, t, x);
    OtherQueue(s.timers, s.queue, s.modulus, t, x);
  }

  lemma Post(s: State, t: Timer, value: nat, epoch: nat)
    requires Detached(s, t, epoch) && value == Wrap(s.timers[t].last, s.modulus)
    ensures Agrees(Posted(s, t, value), epoch)
  {
    hide Wrap, Epoch, ListAgrees, QueueAgrees;
    var x := s.timers[t].(place := Queued);
    OtherList(s.timers, s.first, false, t, x);
    OtherList(s.timers, s.other, true, t, x);
    PostQueue(s.timers, s.queue, s.modulus, t, value);
  }

  lemma PostQueue(timers: map<Timer, Tm>, queue: seq<Command>, m: Modulus, t: Timer, value: nat)
    requires QueueAgrees(timers, queue, m) && t in timers && timers[t].place == Nowhere
      && value == Wrap(timers[t].last, m)
    ensures QueueAgrees(timers[t := timers[t].(place := Queued)], queue + [Command(t, value)], m)
  {
    var r, q := timers[t := timers[t].(place := Queued)], queue + [Command(t, value)];
    forall u | u in r && r[u].place == Queued ensures exists i :: 0 <= i < |q| && q[i].timer == u {
      if u == t {
        assert q[|queue|].timer == t;
      } else {
        var i :| 0 <= i < |queue| && queue[i].timer == u;
        assert q[i].timer == u;
      }
    }
  }

  // ---- Switching the lists ----

  function Due(b: Tm): nat {
    b.last + b.period
  }

  lemma EpochLimit(x: nat, epoch: nat, m: Modulus)
    ensures Epoch(x, m) <= epoch <==> x < (epoch + 1) * m
  {
    DivModSum(x, m);
    Distribute(epoch, 1, m);
    var q := Epoch(x, m);
    if q <= epoch {
      Distribute(epoch - q, q, m);
      MulNonNegative(epoch - q, m);
    } else {
      Distribute(q - epoch - 1, epoch + 1, m);
      MulNonNegative(q - epoch - 1, m);
    }
  }

  /** The reload time stays in the list's epoch exactly when the wrapped sum has not wrapped. */
  lemma ReloadInEpoch(x: nat, period: nat, m: Modulus)
    requires 0 < period < m
    ensures Wrap(Wrap(x, m) + period, m) == Wrap(x + period, m)
    ensures Wrap(Wrap(x, m) + period, m) > Wrap(x, m) <==> Epoch(x + period, m) == Epoch(x, m)
    ensures Epoch(x + period, m) == Epoch(x, m) || Epoch(x + period, m) == Epoch(x, m) + 1
  {
    AddWithin(x, period, m);
    AddWithin(Wrap(x, m), period, m);
    DivModUnique(Wrap(x, m), 0, Wrap(x, m), m);
  }

  lemma HeadIsEarliest(s: State, epoch: nat)
    requires Agrees(s, epoch) && List(s, s.second) != []
    ensures var t := List(s, s.second)[0];
      t in s.timers && s.timers[t].place == Listed(s.second)
      && forall u :: u in s.timers && s.timers[u].place == Listed(s.second) ==> Due(s.timers[t]) <= Due(s.timers[u])
  {
    var l := List(s, s.second);
    var t, v := l[0], Values(s.timers, l);
    assert t in l;
    forall u | u in s.timers && s.timers[u].place == Listed(s.second) ensures Due(s.timers[t]) <= Due(s.timers[u]) {
      assert u in l;
      var i := IndexOf(l, u);
      assert v[0] <= v[i];
      DivModSum(Due(s.timers[t]), s.modulus);
      DivModSum(Due(s.timers[u]), s.modulus);
    }
  }

  lemma WithoutHead(l: seq<Timer>)
    requires l != []
    ensures Without(l, l[0]) == l[1..]
  {
    assert IndexOf(l, l[0]) == 0;
  }

  /** One turn fires the earliest timer for the time it is due, and brings the loop closer to its end. */
  lemma Turn(s: State, epoch: nat) returns (t: Timer)
    requires Agrees(s, epoch) && List(s, s.second) != []
    ensures t in s.timers && s.timers[t].place == Listed(s.second) && t == List(s, s.second)[0]
    ensures forall u :: u in s.timers && s.timers[u].place == Listed(s.second) ==> Due(s.timers[t]) <= Due(s.timers[u])
    ensures Epoch(Due(s.timers[t]), s.modulus) == epoch
    ensures var r, b := ExpireHead(s), s.timers[t];
      && Agrees(r, epoch) && r.second == s.second && r.modulus == s.modulus && r.now == s.now
        && r.lastTime == s.lastTime
      && List(r, !s.second) == List(s, !s.second)
      && r.log == s.log + [Fire(t, Due(b))]
      && s.queue <= r.queue
      && r.timers == s.timers[t :=
           if !b.autoReload then b.(last := Due(b), place := Nowhere)
           else if Epoch(Due(b) + b.period, s.modulus) == epoch
                then b.(last := Due(b), value := Wrap(Due(b) + b.period, s.modulus))
           else b.(last := Due(b), place := Queued)]
      && Distance(Values(r.timers, List(r, s.second)), s.modulus)
         < Distance(Values(s.timers, List(s, s.second)), s.modulus)
  {
    hide Wrap, Epoch, ListAgrees, QueueAgrees, InsertAt, InsertPos, Without, Values, Distance;
    HeadIsEarliest(s, epoch);
    t := List(s, s.second)[0];
    var b, m := s.timers[t], s.modulus;
    assert Timely(b, m, epoch, s.second);
    ReloadInEpoch(Due(b), b.period, m);
    Detach(s, t, epoch);
    var s1 := Unlinked(s, t);
    FiredKeeps(s1, t, epoch);
    var s2 := Fired(s1, t);
    if b.autoReload {
      if Epoch(Due(b) + b.period, m) == epoch {
        Insert(s2, t, Wrap(Due(b) + b.period, m), s.second, epoch);
      } else {
        Post(s2, t, b.value, epoch);
      }
    }
    TurnDistance(s, epoch);
  }

  /** The list a turn leaves: the rest of it, with the timer put back if its reload is in the epoch. */
  lemma TurnList(s: State)
    requires List(s, s.second) != [] && List(s, s.second)[0] in s.timers
    requires s.timers[List(s, s.second)[0]].place == Listed(s.second)
    ensures var r, l := ExpireHead(s), List(s, s.second);
      var t := l[0];
      var b := s.timers[t];
      var reload := Wrap(b.value + b.period, s.modulus);
      && t in r.timers && r.timers == s.timers[t := r.timers[t]] && r.second == s.second && r.modulus == s.modulus
      && if b.autoReload && reload > b.value
         then r.timers[t].value == reload
           && exists p :: 0 <= p <= |l[1..]| && List(r, s.second) == InsertAt(l[1..], p, t)
         else List(r, s.second) == l[1..]
  {
    hide Wrap, Epoch, InsertAt, InsertPos, Values, Without;
    var l := List(s, s.second);
    WithoutHead(l);
    var s1 := Fired(Unlinked(s, l[0]), l[0]);
    assert List(s1, s.second) == l[1..];
    var p := InsertPos(Values(s1.timers, l[1..]), Wrap(s.timers[l[0]].value + s.timers[l[0]].period, s.modulus));
  }

  lemma DistanceDrops(timers: map<Timer, Tm>, l: seq<Timer>, x: Tm, m: Modulus)
    requires l != [] && NoDup(l) && l[0] in timers && timers[l[0]].value < m
    ensures Distance(Values(timers[l[0] := x], l[1..]), m) < Distance(Values(timers, l), m)
    ensures forall p {:trigger InsertAt(l[1..], p, l[0])} :: 0 <= p <= |l[1..]| && x.value > timers[l[0]].value ==>
      Distance(Values(timers[l[0] := x], InsertAt(l[1..], p, l[0])), m) < Distance(Values(timers, l), m)
  {
    var t, v, after := l[0], Values(timers, l), timers[l[0] := x];
    assert v[1..] == Values(timers, l[1..]);
    assert t !in l[1..];
    SameValues(timers, l[1..], t, x);
    forall p | 0 <= p <= |l[1..]|
      ensures x.value > timers[t].value ==> Distance(Values(after, InsertAt(l[1..], p, t)), m) < Distance(v, m)
    {
      DistanceInsert(v[1..], p, x.value, m);
      assert Values(after, InsertAt(l[1..], p, t)) == InsertAt(v[1..], p, x.value);
    }
  }

  lemma TurnDistance(s: State, epoch: nat)
    requires Agrees(s, epoch) && List(s, s.second) != [] && List(s, s.second)[0] in s.timers
    ensures var r := ExpireHead(s);
      Distance(Values(r.timers, List(r, s.second)), s.modulus)
      < Distance(Values(s.timers, List(s, s.second)), s.modulus)
  {
    hide Wrap, Epoch;
    var l, r := List(s, s.second), ExpireHead(s);
    assert l[0] in l && Timely(s.timers[l[0]], s.modulus, epoch, s.second);
    assert s.timers[l[0]].value < s.modulus;
    TurnList(s);
    DistanceDrops(s.timers, l, r.timers[l[0]], s.modulus);
    hide ExpireHead, Values, InsertAt, Distance, Agrees;
  }

  /** The loop of prvSwitchTimerLists. */
  ghost function Expire(s: State, epoch: nat): State
    requires Agrees(s, epoch)
    decreases Distance(Values(s.timers, List(s, s.second)), s.modulus)
  {
    if List(s, s.second) == [] then s else
      HeadIsEarliest(s, epoch);
      assert Agrees(ExpireHead(s), epoch) by { var t := Turn(s, epoch); }
      assert ExpireHead(s).second == s.second && ExpireHead(s).modulus == s.modulus by { var t := Turn(s, epoch); }
      TurnDistance(s, epoch);
      Expire(ExpireHead(s), epoch)
  }

  /** The expiry times before the limit of a timer that expired last at `last`; one for a one-shot timer. */
  function Expiries(last: nat, period: nat, autoReload: bool, limit: nat): (xs: seq<nat>)
    requires period > 0
    ensures xs != []
    decreases limit - last
  {
    var x := last + period;
    if autoReload && x + period < limit then [x] + Expiries(x, period, autoReload, limit) else [x]
  }

  /** Exactly every expiry before the limit: period by period, and the next one is past it. */
  lemma {:induction false} ExpiriesMeaning(last: nat, period: nat, autoReload: bool, limit: nat)
    requires period > 0 && last + period < limit
    ensures var xs := Expiries(last, period, autoReload, limit);
      && (forall i :: 0 <= i < |xs| ==> xs[i] == (if i == 0 then last else xs[i - 1]) + period && xs[i] < limit)
      && (if autoReload then xs[|xs| - 1] + period >= limit else |xs| == 1)
    decreases limit - last
  {
    var x := last + period;
    if autoReload && x + period < limit {
      ExpiriesMeaning(x, period, autoReload, limit);
    }
  }

  function Times(log: seq<Fire>, t: Timer): seq<nat> {
    if log == [] then [] else
      var f := log[|log| - 1];
      Times(log[..|log| - 1], t) + if f.timer == t then [f.time] else []
  }

  lemma TimesAppend(log: seq<Fire>, f: Fire, t: Timer)
    ensures Times(log + [f], t) == Times(log, t) + if f.timer == t then [f.time] else []
  {
    assert (log + [f])[..|log|] == log;
  }

  /** A timer after all its expiries before the limit. */
  function CaughtUp(b: Tm, limit: nat, m: Modulus): Tm
    requires b.period > 0
  {
    var xs := Expiries(b.last, b.period, b.autoReload, limit);
    b.(last := xs[|xs| - 1], value := Wrap(xs[|xs| - 1], m), place := if b.autoReload then Queued else Nowhere)
  }

  /** The expiries a list switch owes to one timer. */
  function Owed(b: Tm, second: bool, limit: nat): seq<nat> {
    if b.place == Listed(second) && b.period > 0 then Expiries(b.last, b.period, b.autoReload, limit) else []
  }

  ghost predicate TimersSwitched(before: map<Timer, Tm>, after: map<Timer, Tm>, second: bool, limit: nat, m: Modulus) {
    && after.Keys == before.Keys
    && forall t :: t in before ==>
         after[t] == if before[t].place == Listed(second) && before[t].period > 0
                     then CaughtUp(before[t], limit, m) else before[t]
  }

  ghost predicate OwedFired(timers: map<Timer, Tm>, second: bool, before: seq<Fire>, after: seq<Fire>, limit: nat) {
    forall t :: t in timers ==> Times(after, t) == Times(before, t) + Owed(timers[t], second, limit)
  }

  /** The log grew by fires in time order, none earlier than `from` or at or past the limit. */
  ghost predicate FiredInOrder(before: seq<Fire>, after: seq<Fire>, from: nat, limit: nat) {
    && before <= after
    && (forall i :: |before| <= i < |after| ==> from <= after[i].time < limit)
    && (forall i, j :: |before| <= i < j < |after| ==> after[i].time <= after[j].time)
  }

  /** A timer after one turn: gone, back in the list, or restarted by a command. */
  function Turned(b: Tm, m: Modulus, limit: nat): Tm {
    if !b.autoReload then b.(last := Due(b), place := Nowhere)
    else if Due(b) + b.period < limit then b.(last := Due(b), value := Wrap(Due(b) + b.period, m))
    else b.(last := Due(b), place := Queued)
  }

  lemma TimersTurn(timers: map<Timer, Tm>, t: Timer, after: map<Timer, Tm>, second: bool, limit: nat, m: Modulus)
    requires t in timers && timers[t].place == Listed(second) && timers[t].period > 0
    requires timers[t].value == Wrap(Due(timers[t]), m)
    requires TimersSwitched(timers[t := Turned(timers[t], m, limit)], after, second, limit, m)
    ensures TimersSwitched(timers, after, second, limit, m)
  {
    hide Wrap, Epoch;
    var mid := timers[t := Turned(timers[t], m, limit)];
    assert forall u :: u in timers <==> u in mid;
  }

  lemma OwedTurn(b: Tm, second: bool, limit: nat, m: Modulus)
    requires b.place == Listed(second) && b.period > 0
    ensures Owed(b, second, limit) == [Due(b)] + Owed(Turned(b, m, limit), second, limit)
  {
    hide Wrap;
  }

  lemma LogTurn(timers: map<Timer, Tm>, t: Timer, second: bool, log: seq<Fire>, after: seq<Fire>, limit: nat,
    m: Modulus)
    requires t in timers && timers[t].place == Listed(second) && timers[t].period > 0
    requires OwedFired(timers[t := Turned(timers[t], m, limit)], second, log + [Fire(t, Due(timers[t]))], after, limit)
    ensures OwedFired(timers, second, log, after, limit)
  {
    hide Wrap, Owed, Turned, Times;
    var x := Turned(timers[t], m, limit);
    var mid := timers[t := x];
    forall u | u in timers ensures Times(after, u) == Times(log, u) + Owed(timers[u], second, limit) {
      assert u in mid;
      TimesAppend(log, Fire(t, Due(timers[t])), u);
      if u == t {
        OwedTurn(timers[t], second, limit, m);
        assert (Times(log, t) + [Due(timers[t])]) + Owed(x, second, limit)
            == Times(log, t) + ([Due(timers[t])] + Owed(x, second, limit));
      } else {
        assert Times(log, u) + [] == Times(log, u);
      }
    }
  }

  lemma OrderTurn(log: seq<Fire>, f: Fire, after: seq<Fire>, from: nat, limit: nat)
    requires from <= f.time < limit && FiredInOrder(log + [f], after, f.time, limit)
    ensures FiredInOrder(log, after, from, limit)
  {
    assert after[|log|] == (log + [f])[|log|] == f;
  }

  /** The first time of the next epoch. */
  function WrapTime(epoch: nat, m: Modulus): nat {
    MulNonNegative(epoch + 1, m);
    (epoch + 1) * m
  }

  lemma TurnBeforeWrap(s: State, epoch: nat) returns (t: Timer)
    requires Agrees(s, epoch) && List(s, s.second) != []
    ensures t in s.timers && s.timers[t].place == Listed(s.second) && s.timers[t].period > 0
    ensures s.timers[t].value == Wrap(Due(s.timers[t]), s.modulus) && Due(s.timers[t]) < WrapTime(epoch, s.modulus)
    ensures forall u :: u in s.timers && s.timers[u].place == Listed(s.second) ==> Due(s.timers[t]) <= Due(s.timers[u])
    ensures var r, b := ExpireHead(s), s.timers[t];
      && Agrees(r, epoch) && r.second == s.second && r.modulus == s.modulus && r.now == s.now
        && r.lastTime == s.lastTime
      && List(r, !s.second) == List(s, !s.second)
      && r.log == s.log + [Fire(t, Due(b))] && s.queue <= r.queue
      && r.timers == s.timers[t := Turned(b, s.modulus, WrapTime(epoch, s.modulus))]
  {
    hide Wrap, Epoch, ListAgrees, QueueAgrees, ExpireHead, Distance;
    t := Turn(s, epoch);
    var b := s.timers[t];
    ListedTimely(s, t, epoch);
    EpochLimit(Due(b), epoch, s.modulus);
    EpochLimit(Due(b) + b.period, epoch, s.modulus);
    ReloadInEpoch(Due(b), b.period, s.modulus);
  }

  /** All that a switch owes has been fired, in order, and the current list is empty. */
  ghost predicate Switched(s: State, r: State, epoch: nat, from: nat) {
    && Agrees(r, epoch) && List(r, s.second) == [] && List(r, !s.second) == List(s, !s.second)
    && r.second == s.second && r.modulus == s.modulus && r.now == s.now && r.lastTime == s.lastTime
    && s.queue <= r.queue
    && TimersSwitched(s.timers, r.timers, s.second, WrapTime(epoch, s.modulus), s.modulus)
    && OwedFired(s.timers, s.second, s.log, r.log, WrapTime(epoch, s.modulus))
    && FiredInOrder(s.log, r.log, from, WrapTime(epoch, s.modulus))
  }

  lemma SwitchedTurn(s: State, r: State, epoch: nat, t: Timer, from: nat)
    requires t in s.timers && s.timers[t].place == Listed(s.second) && s.timers[t].period > 0
    requires s.timers[t].value == Wrap(Due(s.timers[t]), s.modulus)
      && from <= Due(s.timers[t]) < WrapTime(epoch, s.modulus)
    requires List(s, s.second) != [] && List(s, s.second)[0] in s.timers
    requires var s1, b := ExpireHead(s), s.timers[t];
      && s1.second == s.second && s1.modulus == s.modulus && s1.now == s.now && s1.lastTime == s.lastTime
      && List(s1, !s.second) == List(s, !s.second)
      && s1.log == s.log + [Fire(t, Due(b))] && s.queue <= s1.queue
      && s1.timers == s.timers[t := Turned(b, s.modulus, WrapTime(epoch, s.modulus))]
      && Switched(s1, r, epoch, Due(b))
    ensures Switched(s, r, epoch, from)
  {
    hide Wrap, WrapTime, Agrees, ExpireHead, List, TimersSwitched, OwedFired, FiredInOrder, Turned;
    var limit, m := WrapTime(epoch, s.modulus), s.modulus;
    TimersTurn(s.timers, t, r.timers, s.second, limit, m);
    LogTurn(s.timers, t, s.second, s.log, r.log, limit, m);
    OrderTurn(s.log, Fire(t, Due(s.timers[t])), r.log, from, limit);
  }

  /** prvSwitchTimerLists fires exactly the owed expiries, in order, and leaves one command per reloading timer. */
  lemma {:induction false} SwitchIsExact(s: State, epoch: nat, from: nat)
    requires Agrees(s, epoch)
    requires forall u :: u in s.timers && s.timers[u].place == Listed(s.second) ==> from <= Due(s.timers[u])
    ensures Switched(s, Expire(s, epoch), epoch, from)
    decreases Distance(Values(s.timers, List(s, s.second)), s.modulus)
  {
    hide Wrap, Epoch, WrapTime;
    if List(s, s.second) == [] {
      SwitchDone(s, epoch);
    } else {
      hide Switched;
      var t := TurnBeforeWrap(s, epoch);
      HeadIsEarliest(s, epoch);
      TurnDistance(s, epoch);
      hide Agrees, ExpireHead, Distance, Turned;
      StillDue(s.timers, t, s.second, WrapTime(epoch, s.modulus), s.modulus);
      SwitchIsExact(ExpireHead(s), epoch, Due(s.timers[t]));
      SwitchedTurn(s, Expire(ExpireHead(s), epoch), epoch, t, from);
    }
  }

  lemma ListedTimely(s: State, t: Timer, epoch: nat)
    requires Agrees(s, epoch) && t in s.timers
    ensures Timely(s.timers[t], s.modulus, epoch, s.second)
  {
  }

  lemma StillDue(timers: map<Timer, Tm>, t: Timer, second: bool, limit: nat, m: Modulus)
    requires t in timers && forall u :: u in timers && timers[u].place == Listed(second) ==>
      Due(timers[t]) <= Due(timers[u])
    ensures var after := timers[t := Turned(timers[t], m, limit)];
      forall u :: u in after && after[u].place == Listed(second) ==> Due(timers[t]) <= Due(after[u])
  {
  }

  lemma SwitchDone(s: State, epoch: nat)
    requires Agrees(s, epoch) && List(s, s.second) == []
    ensures forall t :: t in s.timers ==> s.timers[t].place != Listed(s.second)
  {
    assert forall t :: t in s.timers && s.timers[t].place == Listed(s.second) ==> t in List(s, s.second);
  }
}
