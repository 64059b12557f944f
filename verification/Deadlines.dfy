/** Wrap-safe deadlines: xTaskCheckForTimeOut and xTaskDelayUntil against unbounded time. */
module Deadlines {
  import opened Arith
  import opened TickTime

  // ---- xTaskCheckForTimeOut ----

  /** TimeOut_t, and the caller's remaining block time. */
  datatype TimeOut = TimeOut(overflows: nat, entered: nat, remaining: nat)

  function Set(now: nat, remaining: nat, m: Modulus): TimeOut {
    TimeOut(Epoch(now, m), Wrap(now, m), remaining)
  }

  /** One check at time `now`: the new record and whether it reports a timeout. */
  function Check(t: TimeOut, now: nat, aborted: bool, m: Modulus): (TimeOut, bool)
    requires t.entered < m
  {
    var n := Wrap(now, m);
    if aborted then (t, true)
    else if t.remaining == m - 1 then (t, false)
    else if Epoch(now, m) != t.overflows && n >= t.entered then (t.(remaining := 0), true)
    else if Elapsed(n, t.entered, m) < t.remaining then (Set(now, t.remaining - Elapsed(n, t.entered, m), m), false)
    else (t.(remaining := 0), true)
  }

  /** A full wrap or more has gone by unnoticed: two wraps, and the tick count is back below its old value. */
  predicate Missed(E: nat, N: nat, wait: nat, m: Modulus)
    requires E <= N
  {
    Epoch(N, m) >= Epoch(E, m) + 2 && Wrap(N, m) < Wrap(E, m) && Wrap(N - E, m) < wait
  }

  lemma SameOrNextEpoch(E: nat, N: nat, m: Modulus)
    requires E <= N
    ensures Epoch(E, m) <= Epoch(N, m)
    ensures Epoch(N, m) == Epoch(E, m) ==> Wrap(N, m) >= Wrap(E, m) && N - E == Wrap(N, m) - Wrap(E, m)
    ensures Epoch(N, m) == Epoch(E, m) + 1 ==> N - E == Wrap(N, m) + m - Wrap(E, m)
    ensures Epoch(N, m) >= Epoch(E, m) + 2 ==> N - E > m
  {
    var q, r := Epoch(N, m) - Epoch(E, m), Wrap(N, m) - Wrap(E, m);
    DivModSum(E, m);
    DivModSum(N, m);
    Distribute(Epoch(N, m), Epoch(E, m), m);
    if q >= 2 {
      MulGrows(q - 1, m);
      Distribute(q - 1, 1, m);
      Distribute(q - 2, 2, m);
      MulNonNegative(q - 2, m);
    } else if q < 0 {
      MulGrows(-q - 1, m);
      Distribute(0, q, m);
    }
  }

  /** A check reports expiry exactly when the wait has elapsed, in all cases but the one `Missed` describes. */
  lemma CheckCorrectIff(E: nat, N: nat, wait: nat, m: Modulus)
    requires E <= N && wait < m - 1
    ensures (Check(Set(E, wait, m), N, false, m).1 <==> N - E >= wait) <==> !Missed(E, N, wait, m)
  {
    hide Wrap, Epoch;
    ElapsedIs(E, N, m);
    SameOrNextEpoch(E, N, m);
    if Epoch(N, m) <= Epoch(E, m) + 1 && N - E < m {
      DivModUnique(N - E, 0, N - E, m);
    }
  }

  /** Two wraps gone by: a wait of two ticks, begun on the last tick before a wrap, is reported as running. */
  lemma CheckMissesTwoWraps(m: Modulus)
    requires m > 3
    ensures Missed(m - 1, 2 * m, 2, m) && 2 * m - (m - 1) >= 2 && !Check(Set(m - 1, 2, m), 2 * m, false, m).1
  {
    DivModUnique(m - 1, 0, m - 1, m);
    DivModUnique(2 * m, 2, 0, m);
    DivModUnique(m + 1, 1, 1, m);
    CheckCorrectIff(m - 1, 2 * m, 2, m);
  }

  /** With fewer than two wraps since the last one, a check is exact and keeps the deadline. */
  lemma CheckIsExact(E: nat, N: nat, wait: nat, m: Modulus)
    requires E <= N && wait < m - 1 && Epoch(N, m) < Epoch(E, m) + 2
    ensures var r := Check(Set(E, wait, m), N, false, m);
      (r.1 <==> N - E >= wait) && (!r.1 ==> r.0 == Set(N, wait - (N - E), m)) && (r.1 ==> r.0.remaining == 0)
  {
    hide Wrap, Epoch;
    ElapsedIs(E, N, m);
    SameOrNextEpoch(E, N, m);
  }

  /** The record after a series of checks, none of which reported a timeout, and the last report. */
  function CheckAll(t: TimeOut, times: seq<nat>, m: Modulus): (r: (TimeOut, bool))
    requires t.entered < m
    decreases |times|
  {
    if times == [] then (t, false)
    else
      var c := Check(t, times[0], false, m);
      if c.1 then c else CheckAll(c.0, times[1..], m)
  }

  /** Each check comes after the last one, with fewer than two wraps between them. */
  predicate Frequent(from: nat, times: seq<nat>, m: Modulus)
    decreases |times|
  {
    times == [] ||
    (from <= times[0] && Epoch(times[0], m) < Epoch(from, m) + 2 && Frequent(times[0], times[1..], m))
  }

  /** However often the wait is interrupted, its total is what was asked for. */
  lemma {:induction false} TotalWaitIsExact(E: nat, wait: nat, times: seq<nat>, m: Modulus)
    requires wait < m - 1 && Frequent(E, times, m)
    ensures CheckAll(Set(E, wait, m), times, m).1 <==> exists i :: 0 <= i < |times| && times[i] - E >= wait
    decreases |times|
  {
    if times != [] {
      CheckIsExact(E, times[0], wait, m);
      hide Check, Wrap, Epoch;
      var rest := times[1..];
      if times[0] - E < wait {
        TotalWaitIsExact(times[0], wait - (times[0] - E), rest, m);
        if i :| 0 <= i < |times| && times[i] - E >= wait {
          assert rest[i - 1] == times[i];
        }
        if i :| 0 <= i < |rest| && rest[i] - times[0] >= wait - (times[0] - E) {
          assert times[i + 1] == rest[i];
        }
      }
    }
  }

  /** The maximum delay never expires, and an aborted delay always does; neither changes the record. */
  lemma ForeverAndAborted(E: nat, N: nat, wait: nat, m: Modulus)
    requires E <= N && wait < m
    ensures Check(Set(E, m - 1, m), N, false, m) == (Set(E, m - 1, m), false)
    ensures Check(Set(E, wait, m), N, true, m) == (Set(E, wait, m), true)
  {
  }

  // ---- xTaskDelayUntil ----

  /** Whether to delay, for a previous wake time p and a tick count n; and the new previous wake time. */
  predicate ShouldDelay(p: nat, n: nat, increment: nat, m: Modulus)
    requires p < m
  {
    var wake := (p + increment) % m;
    if n < p then wake < p && wake > n else wake < p || wake > n
  }

  /** The decision depends on the residue of the time since the previous wake time alone. */
  lemma ShouldDelayMeans(P: nat, N: nat, increment: nat, m: Modulus)
    requires P <= N && 0 < increment < m
    ensures ShouldDelay(Wrap(P, m), Wrap(N, m), increment, m) <==> Wrap(N - P, m) < increment
  {
    ElapsedIs(P, N, m);
    var p := Wrap(P, m);
    AddWithin(p, increment, m);
    DivModUnique(p, 0, p, m);
  }

  /** It is right exactly when the task is less than a wrap late, or late by a residue that hides nothing. */
  lemma ShouldDelayCorrectIff(P: nat, N: nat, increment: nat, m: Modulus)
    requires P <= N && 0 < increment < m
    ensures (ShouldDelay(Wrap(P, m), Wrap(N, m), increment, m) <==> P + increment > N)
            <==> N - P < m || Wrap(N - P, m) >= increment
  {
    ShouldDelayMeans(P, N, increment, m);
    if N - P < m {
      DivModUnique(N - P, 0, N - P, m);
    }
  }

  /** A call one wrap late delays although its target is past. */
  lemma DelaysAfterAWrap(increment: nat, m: Modulus)
    requires 0 < increment < m
    ensures 0 + increment <= m && ShouldDelay(Wrap(0, m), Wrap(m, m), increment, m)
  {
    DivModUnique(m, 1, 0, m);
    ShouldDelayMeans(0, m, increment, m);
  }

  /** The block time it then asks for ends at the target. */
  lemma DelayEndsAtTarget(P: nat, N: nat, increment: nat, m: Modulus)
    requires P <= N < P + increment && 0 < increment < m
    ensures Elapsed((Wrap(P, m) + increment) % m, Wrap(N, m), m) == P + increment - N
  {
    AddWithin(P, increment, m);
    AddWithin(Wrap(P, m), increment, m);
    DivModUnique(Wrap(P, m), 0, Wrap(P, m), m);
    ElapsedIs(N, P + increment, m);
    DivModUnique(P + increment - N, 0, P + increment - N, m);
  }

  /** A call before the previous wake time, possible after an abort, delays only if it is almost a wrap early. */
  lemma EarlyCall(P: nat, N: nat, increment: nat, m: Modulus)
    requires N < P && P - N < m && 0 < increment < m
    ensures ShouldDelay(Wrap(P, m), Wrap(N, m), increment, m) <==> m - (P - N) < increment
  {
    AddMultiple(N, 1, m);
    ShouldDelayMeans(P, N + m, increment, m);
    DivModUnique(N + m - P, 0, N + m - P, m);
  }

  /** The value left in *pxPreviousWakeTime by k calls. */
  function WakeTime(start: nat, increment: nat, k: nat, m: Modulus): nat {
    if k == 0 then start % m else (WakeTime(start, increment, k - 1, m) + increment) % m
  }

  /** The k-th target is start + k * increment, however late the calls were. */
  lemma {:induction false} NoDrift(start: nat, increment: nat, k: nat, m: Modulus)
    requires increment < m
    ensures k * increment >= 0 && WakeTime(start, increment, k, m) == (start + k * increment) % m
  {
    MulNonNegative(k, increment);
    if k > 0 {
      NoDrift(start, increment, k - 1, m);
      Distribute(k - 1, 1, increment);
      MulNonNegative(k - 1, increment);
      var t := start + (k - 1) * increment;
      AddWithin(t, increment, m);
      AddWithin(t % m, increment, m);
      DivModUnique(t % m, 0, t % m, m);
    }
  }

  /** The ticks for which call number k, made at `time`, blocks. */
  function BlockTime(start: nat, increment: nat, k: nat, time: nat, m: Modulus): nat {
    var p := WakeTime(start, increment, k, m);
    if ShouldDelay(p, Wrap(time, m), increment, m)
    then Elapsed(WakeTime(start, increment, k + 1, m), Wrap(time, m), m) else 0
  }

  /** Calls in a loop: each is made once the one before has returned, and less than a wrap late. */
  ghost predicate CalledInLoop(start: nat, increment: nat, times: seq<nat>, m: Modulus) {
    && (times != [] ==> start <= times[0])
    && (forall k :: 0 <= k < |times| - 1 ==> times[k] + BlockTime(start, increment, k, times[k], m) <= times[k + 1])
    && (forall k :: 0 <= k < |times| ==> times[k] < start + k * increment + m)
  }

  /** One call: it blocks until start + (k + 1) * increment, or not at all if that has come. */
  lemma CallMeetsTarget(start: nat, increment: nat, k: nat, time: nat, m: Modulus)
    requires 0 < increment < m && start + k * increment <= time < start + k * increment + m
    ensures time + BlockTime(start, increment, k, time, m) ==
            if time < start + (k + 1) * increment then start + (k + 1) * increment else time
  {
    NoDrift(start, increment, k, m);
    NoDrift(start, increment, k + 1, m);
    Distribute(k, 1, increment);
    var p := start + k * increment;
    ShouldDelayCorrectIff(p, time, increment, m);
    if time < p + increment {
      DelayEndsAtTarget(p, time, increment, m);
    }
  }

  /**
   Over a whole loop of calls: call number k blocks exactly when start + (k + 1) * increment is still to
   come, and then until that moment.
   */
  lemma {:induction false} LoopMeetsTargets(start: nat, increment: nat, times: seq<nat>, k: nat, m: Modulus)
    requires 0 < increment < m && CalledInLoop(start, increment, times, m) && k < |times|
    ensures start + k * increment <= times[k]
    ensures times[k] + BlockTime(start, increment, k, times[k], m) ==
            if times[k] < start + (k + 1) * increment then start + (k + 1) * increment else times[k]
  {
    if k > 0 {
      LoopMeetsTargets(start, increment, times, k - 1, m);
      assert times[k - 1] + BlockTime(start, increment, k - 1, times[k - 1], m) <= times[(k - 1) + 1];
    }
    CallMeetsTarget(start, increment, k, times[k], m);
  }

  // ---- In place ----

  class Clock {
    const modulus: Modulus
    var now: nat
    var record: TimeOut
    var previousWake: nat

    constructor (modulus: Modulus)
      ensures this.modulus == modulus && now == 0 && previousWake == 0 && record == Set(0, 0, modulus)
    {
      this.modulus, now, previousWake := modulus, 0, 0;
      record := TimeOut(0 / modulus, 0 % modulus, 0);
    }

    /** vTaskSetTimeOutState */
    method SetTimeOut(wait: nat)
      modifies this`record
      ensures record == Set(now, wait, modulus)
    {
      record := TimeOut(now / modulus, now % modulus, wait);
    }

    /** xTaskCheckForTimeOut */
    method CheckForTimeOut(aborted: bool) returns (expired: bool)
      requires record.entered < modulus
      modifies this`record
      ensures (record, expired) == Check(old(record), now, aborted, modulus)
    {
      var n := now % modulus;
      var elapsed := if n >= record.entered then n - record.entered else n + modulus - record.entered;
      if aborted {
        expired := true;
      } else if record.remaining == modulus - 1 {
        expired := false;
      } else if now / modulus != record.overflows && n >= record.entered {
        expired := true;
        record := record.(remaining := 0);
      } else if elapsed < record.remaining {
        record := TimeOut(now / modulus, n, record.remaining - elapsed);
        expired := false;
      } else {
        record := record.(remaining := 0);
        expired := true;
      }
    }

    /** xTaskDelayUntil, with the block time it asks for. */
    method DelayUntil(increment: nat) returns (delays: bool, ticks: nat)
      requires previousWake < modulus && 0 < increment < modulus
      modifies this`previousWake
      ensures delays <==> ShouldDelay(old(previousWake), Wrap(now, modulus), increment, modulus)
      ensures previousWake == (old(previousWake) + increment) % modulus
      ensures delays ==> ticks == Elapsed(previousWake, Wrap(now, modulus), modulus)
    {
      var n := now % modulus;
      var wake := (previousWake + increment) % modulus;
      delays, ticks := false, 0;
      if n < previousWake {
        if wake < previousWake && wake > n {
          delays := true;
        }
      } else {
        if wake < previousWake || wake > n {
          delays := true;
        }
      }
      previousWake := wake;
      if delays {
        ticks := if wake >= n then wake - n else wake + modulus - n;
      }
    }
  }
}
