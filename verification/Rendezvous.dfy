/**
 A barrier made of xEventGroupSync: each of n tasks sets its own bits and waits for everyone's, over
 and over, while other users of the event group leave the rendezvous bits alone.
 */
module Rendezvous {
  import opened EventGroups

  /** own[t] is what task t sets; `all` is the union. */
  datatype Party = Party(own: seq<Bits>, all: Bits)

  ghost predicate Proper(p: Party) {
    && |p.own| > 0
    && (forall t :: 0 <= t < |p.own| ==> p.own[t] != {} && p.own[t] <= p.all)
    && (forall t, u, b :: 0 <= t < u < |p.own| && b in p.own[t] ==> b !in p.own[u])
    && (forall b :: b in p.all ==> exists t :: 0 <= t < |p.own| && b in p.own[t])
  }

  /**
   `calls[t]` and `rets[t]` count task t's calls and returns; `round` the completed rounds.  `results`
   holds the value each task made ready will return.
   */
  datatype State = State(group: Group, round: nat, calls: seq<nat>, rets: seq<nat>, results: map<Task, Bits>)

  datatype Step =
    | Arrive(task: Task)
    | Leave(task: Task)
    | OthersSet(bits: Bits)
    | OthersClear(bits: Bits)
    | OthersWait(waiter: Waiter)
    | OthersTimeOut(index: nat)

  ghost predicate Enabled(p: Party, s: State, step: Step) {
    match step
    case Arrive(t) => t < |p.own| == |s.calls| == |s.rets| && s.calls[t] == s.rets[t]
    case Leave(t) => t < |p.own| == |s.calls| == |s.rets| && t in s.results
    case OthersSet(b) => b !! p.all
    case OthersClear(b) => b !! p.all
    case OthersWait(w) => w.bits !! p.all && w.task >= |p.own|
    case OthersTimeOut(i) => i < |s.group.waiters| && s.group.waiters[i].task >= |p.own|
  }

  function Deliver(results: map<Task, Bits>, woken: seq<Woken>): map<Task, Bits>
    decreases |woken|
  {
    if woken == [] then results else Deliver(results[woken[0].task := woken[0].bits], woken[1..])
  }

  /** All calls of this round have been made. */
  predicate Complete(calls: seq<nat>, round: nat) {
    forall t :: 0 <= t < |calls| ==> calls[t] == round + 1
  }

  ghost function Perform(p: Party, s: State, step: Step): State
    requires Enabled(p, s, step)
  {
    match step
    case Arrive(t) =>
      var r := Sync(s.group, t, p.own[t], p.all, true);
      var results := Deliver(s.results, r.2);
      var calls := s.calls[t := s.calls[t] + 1];
      State(r.0, if Complete(calls, s.round) then s.round + 1 else s.round, calls, s.rets,
            if r.1.Returned? then results[t := r.1.bits] else results)
    case Leave(t) => s.(rets := s.rets[t := s.rets[t] + 1], results := s.results - {t})
    case OthersSet(b) =>
      var r := SetBits(s.group, b);
      s.(group := r.0, results := Deliver(s.results, r.1))
    case OthersClear(b) => s.(group := ClearBits(s.group, b))
    case OthersWait(w) => s.(group := WaitBits(s.group, w, true).0)
    case OthersTimeOut(i) => s.(group := s.group.(waiters := s.group.waiters[..i] + s.group.waiters[i + 1..]))
  }

  // ---- The invariant ----

  /** A task of the party waits for everyone's bits; any other task waits for none of them. */
  ghost predicate WaiterFits(p: Party, w: Waiter) {
    if w.task < |p.own| then w == Waiter(w.task, p.all, true, true) else w.bits !! p.all
  }

  /** The event bits show exactly who has called in the round that is under way. */
  ghost predicate BitsShowCalls(p: Party, bits: Bits, calls: seq<nat>, round: nat) {
    |calls| == |p.own|
    && forall t, b :: 0 <= t < |p.own| && b in p.own[t] ==> (b in bits <==> calls[t] == round + 1)
  }

  ghost predicate WaitersAgree(p: Party, waiters: seq<Waiter>, calls: seq<nat>, round: nat) {
    |calls| == |p.own|
    && (forall w :: w in waiters ==> WaiterFits(p, w) && (w.task < |p.own| ==> calls[w.task] == round + 1))
    && (forall t :: 0 <= t < |p.own| && calls[t] == round + 1 ==> Waiter(t, p.all, true, true) in waiters)
  }

  /** A task may return from the last completed round, with every bit of the rendezvous. */
  ghost predicate CountsAgree(p: Party, s: State) {
    && |s.calls| == |s.rets| == |p.own|
    && (forall t :: 0 <= t < |p.own| ==> s.calls[t] == s.round || (s.calls[t] == s.round + 1 && s.rets[t] == s.round))
    && (forall t :: 0 <= t < |p.own| && s.calls[t] == s.round ==>
          if t in s.results then s.rets[t] + 1 == s.round && p.all <= s.results[t] else s.rets[t] == s.round)
    && (forall t :: 0 <= t < |p.own| && s.calls[t] == s.round + 1 ==> t !in s.results)
    && !Complete(s.calls, s.round)
  }

  ghost predicate Invariant(p: Party, s: State) {
    && BitsShowCalls(p, s.group.bits, s.calls, s.round)
    && WaitersAgree(p, s.group.waiters, s.calls, s.round)
    && CountsAgree(p, s)
  }

  // ---- Steps ----

  lemma ContainsIff(full: Bits, all: Bits)
    ensures full * all == all <==> all <= full
  {
  }

  lemma {:induction false} DeliverMeans(results: map<Task, Bits>, woken: seq<Woken>, full: Bits, t: Task)
    requires forall x :: x in woken ==> x.bits == full
    ensures t in Deliver(results, woken) <==> t in results || Woken(t, full) in woken
    ensures Woken(t, full) in woken ==> Deliver(results, woken)[t] == full
    ensures t in results && Woken(t, full) !in woken ==> Deliver(results, woken)[t] == results[t]
    decreases |woken|
  {
    if woken != [] {
      assert woken[0] == Woken(woken[0].task, full);
      DeliverMeans(results[woken[0].task := woken[0].bits], woken[1..], full, t);
    }
  }

  /** Setting bits wakes a task of the party exactly when all the rendezvous bits are then set. */
  lemma WakesParty(p: Party, s: State, toSet: Bits, t: Task)
    requires Proper(p) && Invariant(p, s) && t < |p.own|
    ensures var full := s.group.bits + toSet;
      Woken(t, full) in SetBits(s.group, toSet).1 <==> p.all <= full && s.calls[t] == s.round + 1
  {
    var full, ws := s.group.bits + toSet, s.group.waiters;
    WokenMeans(ws, full, Woken(t, full));
    ContainsIff(full, p.all);
    if p.all <= full && s.calls[t] == s.round + 1 {
      var w := Waiter(t, p.all, true, true);
      assert w in ws;
      var i :| 0 <= i < |ws| && ws[i] == w;
    }
  }

  lemma AllWokenSame(waiters: seq<Waiter>, full: Bits)
    ensures forall x :: x in WokenBy(waiters, full) ==> x.bits == full
  {
    forall x | x in WokenBy(waiters, full) ensures x.bits == full {
      WokenMeans(waiters, full, x);
    }
  }

  /** While someone is missing, setting bits clears none of the party's and unblocks none of it. */
  lemma IncompleteSet(p: Party, s: State, toSet: Bits)
    requires Proper(p) && Invariant(p, s) && !(p.all <= s.group.bits + toSet)
    ensures var r := SetBits(s.group, toSet).0;
      && (forall b :: b in p.all ==> (b in r.bits <==> b in s.group.bits + toSet))
      && (forall w :: w in r.waiters ==> w in s.group.waiters)
      && (forall w :: w in s.group.waiters && w.task < |p.own| ==> w in r.waiters)
  {
    var full, ws := s.group.bits + toSet, s.group.waiters;
    ContainsIff(full, p.all);
    forall b | b in p.all ensures b !in Cleared(ws, full) {
      ClearedMeans(ws, full, b);
      forall i | 0 <= i < |ws| && b in ws[i].bits ensures !Satisfied(ws[i], full) {
        assert ws[i] in ws;
      }
    }
    forall w ensures w in Remaining(ws, full) <==> w in ws && !Satisfied(w, full) {
      RemainingMeans(ws, full, w);
    }
  }

  /** When the last bit arrives every task of the party leaves the list. */
  lemma CompleteSet(p: Party, s: State, toSet: Bits)
    requires Proper(p) && Invariant(p, s) && p.all <= s.group.bits + toSet
    ensures var r := SetBits(s.group, toSet).0;
      forall w :: w in r.waiters ==> w in s.group.waiters && w.task >= |p.own|
  {
    var full, ws := s.group.bits + toSet, s.group.waiters;
    ContainsIff(full, p.all);
    forall w ensures w in Remaining(ws, full) <==> w in ws && !Satisfied(w, full) {
      RemainingMeans(ws, full, w);
    }
  }

  lemma FullMeansLast(p: Party, s: State, t: Task)
    requires Proper(p) && Invariant(p, s) && t < |p.own| && s.calls[t] == s.round && p.all <= s.group.bits + p.own[t]
    ensures Complete(s.calls[t := s.round + 1], s.round)
  {
    hide WaitersAgree, CountsAgree;
    forall u | 0 <= u < |s.calls| && u != t ensures s.calls[u] == s.round + 1 {
      var b :| b in p.own[u];
      assert b in p.all && b !in p.own[t];
      assert b in s.group.bits + p.own[t];
    }
  }

  lemma LastMeansFull(p: Party, s: State, t: Task)
    requires Proper(p) && Invariant(p, s) && t < |p.own| && Complete(s.calls[t := s.round + 1], s.round)
    ensures p.all <= s.group.bits + p.own[t]
  {
    hide WaitersAgree, CountsAgree;
    forall b | b in p.all ensures b in s.group.bits + p.own[t] {
      var u :| 0 <= u < |p.own| && b in p.own[u];
      assert s.calls[t := s.round + 1][u] == s.round + 1;
    }
  }

  /** All the bits are there exactly when the arriving task was the last one missing. */
  lemma FullIffLast(p: Party, s: State, t: Task)
    requires Proper(p) && Invariant(p, s) && Enabled(p, s, Arrive(t))
    ensures s.calls[t] == s.round
    ensures p.all <= s.group.bits + p.own[t] <==> Complete(s.calls[t := s.calls[t] + 1], s.round)
  {
    assert s.calls[t] == s.round;
    hide Proper, BitsShowCalls, WaitersAgree, CountsAgree, Complete;
    if p.all <= s.group.bits + p.own[t] {
      FullMeansLast(p, s, t);
    }
    if Complete(s.calls[t := s.calls[t] + 1], s.round) {
      LastMeansFull(p, s, t);
    }
  }

  /** Who has a result once task t has arrived. */
  lemma ArriveResults(p: Party, s: State, t: Task, u: Task)
    requires Proper(p) && Invariant(p, s) && Enabled(p, s, Arrive(t)) && u < |p.own|
    ensures var full, after := s.group.bits + p.own[t], Perform(p, s, Arrive(t)).results;
      var woken := p.all <= full && (u == t || s.calls[u] == s.round + 1);
      && (u in after <==> u in s.results || woken)
      && (woken ==> after[u] == full)
      && (u in s.results && !woken ==> after[u] == s.results[u])
  {
    hide Proper, BitsShowCalls, WaitersAgree, Remaining, WokenBy, Cleared;
    var full, woken := s.group.bits + p.own[t], SetBits(s.group, p.own[t]).1;
    ContainsIff(full, p.all);
    AllWokenSame(s.group.waiters, full);
    WakesParty(p, s, p.own[t], u);
    DeliverMeans(s.results, woken, full, u);
    FullIffLast(p, s, t);
  }

  lemma LastFields(p: Party, s: State, t: Task)
    requires Proper(p) && Invariant(p, s) && Enabled(p, s, Arrive(t)) && p.all <= s.group.bits + p.own[t]
    ensures var r, set1 := Perform(p, s, Arrive(t)), SetBits(s.group, p.own[t]).0;
      && r.group == set1.(bits := set1.bits - p.all)
      && r.round == s.round + 1 && r.calls == s.calls[t := s.round + 1] && r.rets == s.rets
      && s.calls[t] == s.round && Complete(r.calls, s.round)
  {
    FullIffLast(p, s, t);
    ContainsIff(s.group.bits + p.own[t], p.all);
    hide Proper, BitsShowCalls, WaitersAgree, CountsAgree, SetBits, Deliver, Complete;
  }

  /** With none of the rendezvous bits set and no task of the party waiting, a round starts afresh. */
  lemma FreshRound(p: Party, bits: Bits, waiters: seq<Waiter>, calls: seq<nat>, round: nat)
    requires Proper(p) && |calls| == |p.own| && bits !! p.all
    requires forall t :: 0 <= t < |p.own| ==> calls[t] == round
    requires forall w :: w in waiters ==> w.task >= |p.own| && WaiterFits(p, w)
    ensures BitsShowCalls(p, bits, calls, round) && WaitersAgree(p, waiters, calls, round)
  {
    forall t, b | 0 <= t < |p.own| && b in p.own[t] ensures b !in bits {
      assert b in p.all;
    }
  }

  lemma LastArrival(p: Party, s: State, t: Task)
    requires Proper(p) && Invariant(p, s) && Enabled(p, s, Arrive(t)) && p.all <= s.group.bits + p.own[t]
    ensures Invariant(p, Perform(p, s, Arrive(t)))
    ensures Perform(p, s, Arrive(t)).round == s.round + 1 && Perform(p, s, Arrive(t)).group.bits !! p.all
  {
    hide SetBits, Deliver, Perform, BitsShowCalls;
    LastFields(p, s, t);
    CompleteSet(p, s, p.own[t]);
    var r := Perform(p, s, Arrive(t));
    FreshRound(p, r.group.bits, r.group.waiters, r.calls, r.round);
    forall u | 0 <= u < |p.own| ensures u in r.results && p.all <= r.results[u]
      && r.rets[u] + 1 == r.round == r.calls[u] {
      assert r.calls[u] == s.round + 1;
      ArriveResults(p, s, t, u);
    }
    assert r.calls[0] == r.round;
    hide WaitersAgree;
  }

  lemma JoinWaiters(p: Party, before: seq<Waiter>, after: seq<Waiter>, calls: seq<nat>, t: Task, round: nat)
    requires WaitersAgree(p, before, calls, round) && t < |p.own| && calls[t] == round
    requires forall w :: w in after ==> w in before || w == Waiter(t, p.all, true, true)
    requires forall w :: w in before && w.task < |p.own| ==> w in after
    requires Waiter(t, p.all, true, true) in after
    ensures WaitersAgree(p, after, calls[t := round + 1], round)
  {
  }

  lemma JoinBits(p: Party, before: Bits, after: Bits, calls: seq<nat>, t: Task, round: nat)
    requires Proper(p) && BitsShowCalls(p, before, calls, round) && t < |p.own|
    requires forall b :: b in p.all ==> (b in after <==> b in before + p.own[t])
    ensures BitsShowCalls(p, after, calls[t := round + 1], round)
  {
    hide Proper;
    forall u, b | 0 <= u < |p.own| && b in p.own[u]
      ensures b in after <==> calls[t := round + 1][u] == round + 1
    {
      BitOwner(p, t, u, b);
      if u == t {
        assert b in after;
      } else {
        assert b in after <==> b in before;
        assert calls[t := round + 1][u] == calls[u];
      }
    }
  }

  /** A bit of the rendezvous belongs to one task. */
  lemma BitOwner(p: Party, t: Task, u: Task, b: nat)
    requires Proper(p) && t < |p.own| && u < |p.own| && b in p.own[u]
    ensures b in p.all && (b in p.own[t] <==> t == u)
  {
  }

  lemma EarlyFields(p: Party, s: State, t: Task)
    requires Proper(p) && Invariant(p, s) && Enabled(p, s, Arrive(t)) && !(p.all <= s.group.bits + p.own[t])
    ensures var r, set1 := Perform(p, s, Arrive(t)), SetBits(s.group, p.own[t]).0;
      && r.group == set1.(waiters := set1.waiters + [Waiter(t, p.all, true, true)])
      && s.calls[t] == s.round == r.round
      && r.calls == s.calls[t := s.round + 1] && r.rets == s.rets && !Complete(r.calls, s.round)
  {
    FullIffLast(p, s, t);
    ContainsIff(s.group.bits + p.own[t], p.all);
    hide Proper, BitsShowCalls, WaitersAgree, CountsAgree, SetBits, Deliver;
  }

  lemma EarlyArrival(p: Party, s: State, t: Task)
    requires Proper(p) && Invariant(p, s) && Enabled(p, s, Arrive(t)) && !(p.all <= s.group.bits + p.own[t])
    ensures Invariant(p, Perform(p, s, Arrive(t)))
    ensures Perform(p, s, Arrive(t)).round == s.round
  {
    hide SetBits, Deliver, Perform, Proper, BitsShowCalls, WaitersAgree, Complete;
    IncompleteSet(p, s, p.own[t]);
    EarlyFields(p, s, t);
    var r := Perform(p, s, Arrive(t));
    forall u | 0 <= u < |p.own|
      ensures u in r.results <==> u in s.results
      ensures u in s.results ==> r.results[u] == s.results[u]
    {
      ArriveResults(p, s, t, u);
    }
    JoinWaiters(p, s.group.waiters, r.group.waiters, s.calls, t, s.round);
    JoinBits(p, s.group.bits, r.group.bits, s.calls, t, s.round);
  }

  // ---- Other users ----

  /** Some bit is missing as long as the round is not complete. */
  lemma SomeBitMissing(p: Party, s: State, b: Bits)
    requires Proper(p) && Invariant(p, s) && b !! p.all
    ensures !(p.all <= s.group.bits + b)
  {
    hide WaitersAgree;
    var missing :| 0 <= missing < |s.calls| && s.calls[missing] != s.round + 1;
    var x :| x in p.own[missing];
    assert x in p.all && x !in s.group.bits + b;
  }

  lemma OthersSetKeeps(p: Party, s: State, b: Bits)
    requires Proper(p) && Invariant(p, s) && b !! p.all
    ensures Invariant(p, Perform(p, s, OthersSet(b)))
  {
    var full, r := s.group.bits + b, Perform(p, s, OthersSet(b));
    assert r.group == SetBits(s.group, b).0 && r.calls == s.calls && r.rets == s.rets && r.round == s.round;
    SomeBitMissing(p, s, b);
    IncompleteSet(p, s, b);
    AllWokenSame(s.group.waiters, full);
    forall u | 0 <= u < |p.own|
      ensures u in r.results <==> u in s.results
      ensures u in s.results ==> r.results[u] == s.results[u]
    {
      WakesParty(p, s, b, u);
      DeliverMeans(s.results, SetBits(s.group, b).1, full, u);
    }
    hide SetBits, Deliver, Perform;
    OtherBits(p, s.group.bits, r.group.bits, s.calls, s.round);
    hide BitsShowCalls, Proper;
  }

  lemma OthersTimeOutKeeps(p: Party, s: State, i: nat)
    requires Proper(p) && Invariant(p, s) && Enabled(p, s, OthersTimeOut(i))
    ensures Invariant(p, Perform(p, s, OthersTimeOut(i)))
  {
    var ws, r := s.group.waiters, Perform(p, s, OthersTimeOut(i));
    forall w | w in ws && w.task < |p.own| ensures w in r.group.waiters {
      var k :| 0 <= k < |ws| && ws[k] == w;
      assert r.group.waiters[if k < i then k else k - 1] == w;
    }
  }

  lemma StepKeeps(p: Party, s: State, step: Step)
    requires Proper(p) && Invariant(p, s) && Enabled(p, s, step)
    ensures Invariant(p, Perform(p, s, step))
  {
    match step
    case Arrive(t) => if p.all <= s.group.bits + p.own[t] { LastArrival(p, s, t); } else { EarlyArrival(p, s, t); }
    case OthersSet(b) => OthersSetKeeps(p, s, b);
    case OthersTimeOut(i) => OthersTimeOutKeeps(p, s, i);
    case Leave(t) => LeaveKeeps(p, s, t);
    case _ => OthersKeep(p, s, step);
  }

  lemma LeaveKeeps(p: Party, s: State, t: Task)
    requires Proper(p) && Invariant(p, s) && Enabled(p, s, Leave(t))
    ensures Invariant(p, Perform(p, s, Leave(t)))
    ensures p.all <= s.results[t]
  {
  }

  lemma OtherBits(p: Party, bits: Bits, fewer: Bits, calls: seq<nat>, round: nat)
    requires Proper(p) && BitsShowCalls(p, bits, calls, round)
    requires forall b :: b in p.all ==> (b in fewer <==> b in bits)
    ensures BitsShowCalls(p, fewer, calls, round)
  {
    forall u, y | 0 <= u < |p.own| && y in p.own[u] ensures y in fewer <==> calls[u] == round + 1 {
      assert y in p.all;
    }
  }

  lemma OthersKeep(p: Party, s: State, step: Step)
    requires Proper(p) && Invariant(p, s) && Enabled(p, s, step) && (step.OthersClear? || step.OthersWait?)
    ensures Invariant(p, Perform(p, s, step))
  {
    var r := Perform(p, s, step);
    OtherBits(p, s.group.bits, r.group.bits, s.calls, s.round);
    hide BitsShowCalls, CountsAgree, Proper;
  }

  // ---- Every run ----

  ghost predicate Possible(p: Party, s: State, steps: seq<Step>)
    decreases |steps|
  {
    steps == [] || (Enabled(p, s, steps[0]) && Possible(p, Perform(p, s, steps[0]), steps[1..]))
  }

  ghost function Run(p: Party, s: State, steps: seq<Step>): State
    requires Possible(p, s, steps)
    decreases |steps|
  {
    if steps == [] then s else Run(p, Perform(p, s, steps[0]), steps[1..])
  }

  lemma {:induction false} RunKeeps(p: Party, s: State, steps: seq<Step>)
    requires Proper(p) && Invariant(p, s) && Possible(p, s, steps)
    ensures Invariant(p, Run(p, s, steps))
    decreases |steps|
  {
    hide Proper, Invariant, Enabled, Perform;
    if steps != [] {
      StepKeeps(p, s, steps[0]);
      RunKeeps(p, Perform(p, s, steps[0]), steps[1..]);
    }
  }

  /** Nobody has called, the rendezvous bits are clear, and nobody waits for them. */
  ghost predicate Initial(p: Party, s: State) {
    && |s.calls| == |s.rets| == |p.own| && s.round == 0 && s.results == map[]
    && (forall t :: 0 <= t < |p.own| ==> s.calls[t] == s.rets[t] == 0)
    && s.group.bits !! p.all && forall w :: w in s.group.waiters ==> w.task >= |p.own| && w.bits !! p.all
  }

  lemma InitialInvariant(p: Party, s: State)
    requires Proper(p) && Initial(p, s)
    ensures Invariant(p, s)
  {
    assert s.calls[0] == 0;
    forall u, y | 0 <= u < |p.own| && y in p.own[u] ensures y !in s.group.bits {
      assert y in p.all;
    }
  }

  /** No call of round k returns before every task has made its k-th call. */
  lemma NobodyReturnsEarly(p: Party, s: State, steps: seq<Step>, i: Task, j: Task)
    requires Proper(p) && Initial(p, s) && Possible(p, s, steps) && i < |p.own| && j < |p.own|
    ensures var r := Run(p, s, steps);
      |r.rets| == |r.calls| == |p.own| && r.rets[i] <= r.round <= r.calls[j]
  {
    InitialInvariant(p, s);
    RunKeeps(p, s, steps);
  }

  /** Every return contains all the rendezvous bits. */
  lemma ReturnsEverything(p: Party, s: State, steps: seq<Step>, t: Task)
    requires Proper(p) && Initial(p, s) && Possible(p, s, steps) && t < |p.own|
    ensures var r := Run(p, s, steps); t in r.results ==> p.all <= r.results[t]
  {
    InitialInvariant(p, s);
    RunKeeps(p, s, steps);
  }

  /** The rendezvous bits are clear whenever no call of the next round has been made. */
  lemma ClearBetweenRounds(p: Party, s: State, steps: seq<Step>)
    requires Proper(p) && Initial(p, s) && Possible(p, s, steps)
    ensures var r := Run(p, s, steps);
      (forall t :: 0 <= t < |r.calls| ==> r.calls[t] == r.round) ==> r.group.bits !! p.all
  {
    hide Proper, Invariant, Perform, Enabled;
    InitialInvariant(p, s);
    RunKeeps(p, s, steps);
    ClearUnlessCalled(p, Run(p, s, steps));
  }

  lemma ClearUnlessCalled(p: Party, r: State)
    requires Proper(p) && Invariant(p, r)
    ensures |r.calls| == |p.own|
    ensures (forall t :: 0 <= t < |r.calls| ==> r.calls[t] == r.round) ==> r.group.bits !! p.all
  {
    hide WaitersAgree;
    if forall t :: 0 <= t < |r.calls| ==> r.calls[t] == r.round {
      forall b | b in p.all ensures b !in r.group.bits {
        var t :| 0 <= t < |p.own| && b in p.own[t];
      }
    }
  }

  /** A task that has called and not been woken is waiting for the others; when none is missing, none waits. */
  lemma NobodyIsForgotten(p: Party, s: State, steps: seq<Step>, t: Task)
    requires Proper(p) && Initial(p, s) && Possible(p, s, steps) && t < |p.own|
    ensures var r := Run(p, s, steps);
      |r.calls| == |r.rets| == |p.own| &&
      (r.rets[t] < r.calls[t] && t !in r.results ==> exists u :: 0 <= u < |p.own| && r.calls[u] < r.calls[t])
  {
    hide Proper, BitsShowCalls, WaitersAgree, Enabled, Perform, Initial;
    InitialInvariant(p, s);
    RunKeeps(p, s, steps);
    var r := Run(p, s, steps);
    if r.rets[t] < r.calls[t] && t !in r.results {
      assert r.calls[t] == r.round + 1;
      var u :| 0 <= u < |r.calls| && r.calls[u] != r.round + 1;
    }
  }
}
