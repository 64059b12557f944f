/** Event groups: setting bits wakes exactly the tasks whose conditions they complete. */
module EventGroups {
  type Task = nat

  type Bits = set<nat>

  datatype Waiter = Waiter(task: Task, bits: Bits, all: bool, clearOnExit: bool)

  datatype Group = Group(bits: Bits, waiters: seq<Waiter>)

  /** A task made ready, with the event bits stored in its event list item. */
  datatype Woken = Woken(task: Task, bits: Bits)

  /** prvTestWaitCondition */
  predicate Met(bits: Bits, wanted: Bits, all: bool) {
    if all then bits * wanted == wanted else bits * wanted != {}
  }

  predicate Satisfied(w: Waiter, bits: Bits) {
    Met(bits, w.bits, w.all)
  }

  function Remaining(waiters: seq<Waiter>, bits: Bits): seq<Waiter> {
    if waiters == [] then []
    else if Satisfied(waiters[0], bits) then Remaining(waiters[1..], bits)
    else [waiters[0]] + Remaining(waiters[1..], bits)
  }

  function WokenBy(waiters: seq<Waiter>, bits: Bits): seq<Woken> {
    if waiters == [] then []
    else if Satisfied(waiters[0], bits) then [Woken(waiters[0].task, bits)] + WokenBy(waiters[1..], bits)
    else WokenBy(waiters[1..], bits)
  }

  function Cleared(waiters: seq<Waiter>, bits: Bits): Bits {
    if waiters == [] then {}
    else (if Satisfied(waiters[0], bits) && waiters[0].clearOnExit then waiters[0].bits else {})
         + Cleared(waiters[1..], bits)
  }

  /** xEventGroupSetBits */
  function SetBits(g: Group, b: Bits): (Group, seq<Woken>) {
    var full := g.bits + b;
    (Group(full - Cleared(g.waiters, full), Remaining(g.waiters, full)), WokenBy(g.waiters, full))
  }

  /** xEventGroupClearBits */
  function ClearBits(g: Group, b: Bits): Group {
    g.(bits := g.bits - b)
  }

  // ---- What setting bits does ----

  lemma {:induction false} RemainingMeans(waiters: seq<Waiter>, bits: Bits, w: Waiter)
    ensures w in Remaining(waiters, bits) <==> w in waiters && !Satisfied(w, bits)
  {
    if waiters != [] {
      RemainingMeans(waiters[1..], bits, w);
    }
  }

  /** Some satisfied waiter is this task. */
  ghost predicate SatisfiedAsTask(waiters: seq<Waiter>, bits: Bits, t: Task) {
    exists i :: 0 <= i < |waiters| && waiters[i].task == t && Satisfied(waiters[i], bits)
  }

  lemma {:induction false} WokenMeans(waiters: seq<Waiter>, bits: Bits, x: Woken)
    ensures x in WokenBy(waiters, bits) <==> x.bits == bits && SatisfiedAsTask(waiters, bits, x.task)
  {
    if waiters != [] {
      var rest := waiters[1..];
      WokenMeans(rest, bits, x);
      if i :| 0 <= i < |waiters| && waiters[i].task == x.task && Satisfied(waiters[i], bits) {
        if i > 0 { assert rest[i - 1] == waiters[i]; }
      }
      if i :| 0 <= i < |rest| && rest[i].task == x.task && Satisfied(rest[i], bits) {
        assert waiters[i + 1] == rest[i];
      }
    }
  }

  /** Some satisfied waiter that asked for clearing waited for this bit. */
  ghost predicate ClearedBySome(waiters: seq<Waiter>, bits: Bits, b: nat) {
    exists i :: 0 <= i < |waiters| && waiters[i].clearOnExit && Satisfied(waiters[i], bits) && b in waiters[i].bits
  }

  lemma {:induction false} ClearedMeans(waiters: seq<Waiter>, bits: Bits, b: nat)
    ensures b in Cleared(waiters, bits) <==> ClearedBySome(waiters, bits, b)
  {
    if waiters != [] {
      var rest := waiters[1..];
      ClearedMeans(rest, bits, b);
      if i :| 0 <= i < |waiters| && waiters[i].clearOnExit && Satisfied(waiters[i], bits) && b in waiters[i].bits {
        if i > 0 { assert rest[i - 1] == waiters[i]; }
      }
      if i :| 0 <= i < |rest| && rest[i].clearOnExit && Satisfied(rest[i], bits) && b in rest[i].bits {
        assert waiters[i + 1] == rest[i];
      }
    }
  }

  /** The number of tasks is conserved: each waiter stays or is woken once. */
  lemma {:induction false} NoneLost(waiters: seq<Waiter>, bits: Bits)
    ensures |Remaining(waiters, bits)| + |WokenBy(waiters, bits)| == |waiters|
  {
    if waiters != [] {
      NoneLost(waiters[1..], bits);
    }
  }

  /** Some bit the waiter needs is missing: any of them if it waits for all, every one if it waits for any. */
  ghost predicate Lacks(w: Waiter, bits: Bits) {
    if w.all then exists b :: b in w.bits && b !in bits else forall b :: b in w.bits ==> b !in bits
  }

  lemma ConditionBitByBit(w: Waiter, bits: Bits)
    ensures !w.all ==> (Satisfied(w, bits) <==> exists b :: b in w.bits && b in bits)
    ensures w.all ==> (Satisfied(w, bits) <==> forall b :: b in w.bits ==> b in bits)
    ensures Satisfied(w, bits) <==> !Lacks(w, bits)
  {
    var common := bits * w.bits;
    assert forall b :: b in common <==> b in bits && b in w.bits;
    if common != {} {
      var b :| b in common;
      assert b in w.bits && b in bits;
    }
    if common != w.bits && forall b :: b in w.bits ==> b in bits {
      assert forall b :: b in common <==> b in w.bits;
    }
  }

  /** A waiter for any bit stays when none of its bits is set, one for all bits when some bit is not. */
  lemma StaysBitByBit(g: Group, b: Bits, w: Waiter)
    requires w in g.waiters
    ensures var r := SetBits(g, b).0;
      && (!w.all ==> (w in r.waiters <==> forall bit :: bit in w.bits ==> bit !in g.bits && bit !in b))
      && (w.all ==> (w in r.waiters <==> exists bit :: bit in w.bits && bit !in g.bits && bit !in b))
  {
    var full := g.bits + b;
    RemainingMeans(g.waiters, full, w);
    ConditionBitByBit(w, full);
    if w.all && Lacks(w, full) {
      var bit :| bit in w.bits && bit !in full;
      assert bit !in g.bits && bit !in b;
    }
  }

  /** A waiter of this task is served. */
  ghost predicate Serves(waiters: seq<Waiter>, full: Bits, t: Task) {
    exists w :: w in waiters && w.task == t && !Lacks(w, full)
  }

  /** A served waiter clears this bit. */
  ghost predicate Clears(waiters: seq<Waiter>, full: Bits, bit: nat) {
    exists w :: w in waiters && w.clearOnExit && bit in w.bits && !Lacks(w, full)
  }

  lemma ServesIsSatisfied(waiters: seq<Waiter>, full: Bits, t: Task)
    ensures Serves(waiters, full, t) <==> SatisfiedAsTask(waiters, full, t)
  {
    hide Satisfied, Lacks;
    if Serves(waiters, full, t) {
      var w :| w in waiters && w.task == t && !Lacks(w, full);
      ConditionBitByBit(w, full);
      var i :| 0 <= i < |waiters| && waiters[i] == w;
    }
    if SatisfiedAsTask(waiters, full, t) {
      var i :| 0 <= i < |waiters| && waiters[i].task == t && Satisfied(waiters[i], full);
      ConditionBitByBit(waiters[i], full);
      assert waiters[i] in waiters;
    }
  }

  lemma ClearsIsCleared(waiters: seq<Waiter>, full: Bits, bit: nat)
    ensures Clears(waiters, full, bit) <==> ClearedBySome(waiters, full, bit)
  {
    hide Satisfied, Lacks;
    if Clears(waiters, full, bit) {
      var w :| w in waiters && w.clearOnExit && bit in w.bits && !Lacks(w, full);
      ConditionBitByBit(w, full);
      var i :| 0 <= i < |waiters| && waiters[i] == w;
    }
    if ClearedBySome(waiters, full, bit) {
      var i :| 0 <= i < |waiters| && waiters[i].clearOnExit && Satisfied(waiters[i], full) && bit in waiters[i].bits;
      ConditionBitByBit(waiters[i], full);
      assert waiters[i] in waiters;
    }
  }

  /**
   Exactly the waiters that lack nothing in the old bits with the new ones are woken, all with that same
   value from before any clearing, and exactly the bits those of them that asked for it waited for are cleared.
   */
  lemma SetBitsIsExact(g: Group, b: Bits, w: Waiter, x: Woken, bit: nat)
    ensures var r, full := SetBits(g, b), g.bits + b;
      && (w in r.0.waiters <==> w in g.waiters && Lacks(w, full))
      && (x in r.1 <==> x.bits == full && Serves(g.waiters, full, x.task))
      && (bit in r.0.bits <==> (bit in g.bits || bit in b) && !Clears(g.waiters, full, bit))
      && |r.0.waiters| + |r.1| == |g.waiters|
  {
    hide Satisfied, Lacks, Serves, SatisfiedAsTask, Clears, ClearedBySome;
    var full := g.bits + b;
    RemainingMeans(g.waiters, full, w);
    ConditionBitByBit(w, full);
    WokenMeans(g.waiters, full, x);
    ServesIsSatisfied(g.waiters, full, x.task);
    ClearedMeans(g.waiters, full, bit);
    ClearsIsCleared(g.waiters, full, bit);
    NoneLost(g.waiters, full);
  }

  /** The list is walked in order: what stays and what is woken keep the order of the waiters. */
  lemma {:induction false} InOrder(before: seq<Waiter>, after: seq<Waiter>, bits: Bits)
    ensures Remaining(before + after, bits) == Remaining(before, bits) + Remaining(after, bits)
    ensures WokenBy(before + after, bits) == WokenBy(before, bits) + WokenBy(after, bits)
  {
    if before == [] {
      assert before + after == after;
    } else {
      assert (before + after)[1..] == before[1..] + after;
      InOrder(before[1..], after, bits);
    }
  }

  // ---- Waiting ----

  datatype Outcome = Returned(bits: Bits) | Blocked

  /** The part of xEventGroupWaitBits before it blocks. */
  function WaitBits(g: Group, w: Waiter, mayWait: bool): (Group, Outcome) {
    if Satisfied(w, g.bits) then (g.(bits := if w.clearOnExit then g.bits - w.bits else g.bits), Returned(g.bits))
    else if mayWait then (g.(waiters := g.waiters + [w]), Blocked)
    else (g, Returned(g.bits))
  }

  /** What a call does that timed out: the condition may have come true since. */
  function AfterTimeout(g: Group, w: Waiter): (Group, Bits) {
    (g.(bits := if Satisfied(w, g.bits) && w.clearOnExit then g.bits - w.bits else g.bits), g.bits)
  }

  /** The part of xEventGroupSync before it blocks, with the tasks it wakes. */
  function Sync(g: Group, t: Task, toSet: Bits, wanted: Bits, mayWait: bool): (Group, Outcome, seq<Woken>) {
    var full, r := g.bits + toSet, SetBits(g, toSet);
    if full * wanted == wanted then (r.0.(bits := r.0.bits - wanted), Returned(full), r.1)
    else if mayWait then (r.0.(waiters := r.0.waiters + [Waiter(t, wanted, true, true)]), Blocked, r.1)
    else (r.0, Returned(r.0.bits), r.1)
  }

  // ---- What waiting does ----

  /**
   xEventGroupWaitBits returns at once, with the bits from before, if it may not wait, or if it waits for
   any bit and one of its bits is set, or for all and none is missing; otherwise it joins the waiters.
   */
  lemma WaitBitByBit(g: Group, w: Waiter, mayWait: bool)
    ensures var r := WaitBits(g, w, mayWait);
      && (!w.all ==> (r.1 == Blocked <==> mayWait && forall b :: b in w.bits ==> b !in g.bits))
      && (w.all ==> (r.1 == Blocked <==> mayWait && exists b :: b in w.bits && b !in g.bits))
      && (r.1 != Blocked ==> r.1 == Returned(g.bits))
      && r.0.waiters == g.waiters + if r.1 == Blocked then [w] else []
  {
    ConditionBitByBit(w, g.bits);
  }

  /** A bit is left unless the condition holds and the call clears it, waiting or after a timeout. */
  lemma BitsLeft(g: Group, w: Waiter, mayWait: bool, b: nat)
    ensures b in WaitBits(g, w, mayWait).0.bits <==> b in g.bits && !(!Lacks(w, g.bits) && w.clearOnExit && b in w.bits)
    ensures b in AfterTimeout(g, w).0.bits <==> b in g.bits && !(!Lacks(w, g.bits) && w.clearOnExit && b in w.bits)
    ensures AfterTimeout(g, w).1 == g.bits && AfterTimeout(g, w).0.waiters == g.waiters
    ensures b in ClearBits(g, w.bits).bits <==> b in g.bits && b !in w.bits
  {
    ConditionBitByBit(w, g.bits);
    hide Lacks;
  }

  /** xEventGroupSync sets its bits first; it then returns, or waits for all of the others' and clears them. */
  lemma SyncBitByBit(g: Group, t: Task, toSet: Bits, wanted: Bits, mayWait: bool)
    ensures var r, after, full := Sync(g, t, toSet, wanted, mayWait), SetBits(g, toSet).0, g.bits + toSet;
      && r.2 == SetBits(g, toSet).1
      && (r.1 == Blocked <==> mayWait && exists b :: b in wanted && b !in g.bits && b !in toSet)
      && r.0.waiters == after.waiters + (if r.1 == Blocked then [Waiter(t, wanted, true, true)] else [])
      && (if forall b :: b in wanted ==> b in g.bits || b in toSet
          then r.1 == Returned(full) && forall b :: b in r.0.bits <==> b in after.bits && b !in wanted
          else r.0.bits == after.bits && (r.1 != Blocked ==> r.1 == Returned(after.bits)))
  {
    var full := g.bits + toSet;
    ConditionBitByBit(Waiter(t, wanted, true, true), full);
    assert (exists b :: b in wanted && b !in full) <==> exists b :: b in wanted && b !in g.bits && b !in toSet by {
      if b :| b in wanted && b !in full {
        assert b !in g.bits && b !in toSet;
      }
      if b :| b in wanted && b !in g.bits && b !in toSet {
        assert b !in full;
      }
    }
  }

  // ---- No task waits on a satisfied condition ----

  ghost predicate AllUnsatisfied(g: Group) {
    forall w :: w in g.waiters ==> w.bits != {} && !Satisfied(w, g.bits)
  }

  /** Clearing bits can only make a condition false. */
  lemma ConditionsAreMonotone(w: Waiter, few: Bits, many: Bits)
    requires few <= many && Satisfied(w, few) && w.bits != {}
    ensures Satisfied(w, many)
  {
    if w.all {
      assert many * w.bits == w.bits;
    } else {
      var b :| b in few * w.bits;
      assert b in many * w.bits;
    }
  }

  lemma SetBitsUnsatisfied(g: Group, b: Bits)
    requires AllUnsatisfied(g)
    ensures AllUnsatisfied(SetBits(g, b).0)
  {
    var r, full := SetBits(g, b).0, g.bits + b;
    forall w | w in r.waiters ensures w.bits != {} && !Satisfied(w, r.bits) {
      RemainingMeans(g.waiters, full, w);
      if Satisfied(w, r.bits) {
        ConditionsAreMonotone(w, r.bits, full);
      }
    }
  }

  lemma FewerBitsUnsatisfied(g: Group, few: Bits)
    requires AllUnsatisfied(g) && few <= g.bits
    ensures AllUnsatisfied(g.(bits := few))
  {
    forall w | w in g.waiters ensures !Satisfied(w, few) {
      if Satisfied(w, few) {
        ConditionsAreMonotone(w, few, g.bits);
      }
    }
  }

  datatype Call =
    | Set(bits: Bits)
    | Clear(bits: Bits)
    | Wait(waiter: Waiter, mayWait: bool)
    | Rendezvous(task: Task, bits: Bits, wanted: Bits, mayWait: bool)
    | TimesOut(index: nat)
    | ReturnsLate(waiter: Waiter)

  /** The source's assertions: no call waits for no bits at all. */
  predicate Enabled(g: Group, c: Call) {
    match c
    case Wait(w, _) => w.bits != {}
    case Rendezvous(_, _, wanted, _) => wanted != {}
    case TimesOut(i) => i < |g.waiters|
    case _ => true
  }

  function Perform(g: Group, c: Call): Group
    requires Enabled(g, c)
  {
    match c
    case Set(b) => SetBits(g, b).0
    case Clear(b) => ClearBits(g, b)
    case Wait(w, mayWait) => WaitBits(g, w, mayWait).0
    case Rendezvous(t, b, wanted, mayWait) => Sync(g, t, b, wanted, mayWait).0
    case TimesOut(i) => g.(waiters := g.waiters[..i] + g.waiters[i + 1..])
    case ReturnsLate(w) => AfterTimeout(g, w).0
  }

  /** A task that times out leaves the list, and nothing else changes. */
  lemma TimesOutRemoves(g: Group, i: nat)
    requires i < |g.waiters|
    ensures var r := Perform(g, TimesOut(i));
      r.bits == g.bits && multiset(r.waiters) == multiset(g.waiters) - multiset{g.waiters[i]}
  {
    assert g.waiters == g.waiters[..i] + [g.waiters[i]] + g.waiters[i + 1..];
  }

  lemma PerformUnsatisfied(g: Group, c: Call)
    requires AllUnsatisfied(g) && Enabled(g, c)
    ensures AllUnsatisfied(Perform(g, c))
  {
    match c
    case Set(b) => SetBitsUnsatisfied(g, b);
    case Clear(b) => FewerBitsUnsatisfied(g, g.bits - b);
    case Wait(w, _) => FewerBitsUnsatisfied(g, g.bits - w.bits);
    case Rendezvous(t, b, wanted, mayWait) => SyncUnsatisfied(g, t, b, wanted, mayWait);
    case TimesOut(_) =>
    case ReturnsLate(w) => FewerBitsUnsatisfied(g, g.bits - w.bits);
  }

  lemma SyncUnsatisfied(g: Group, t: Task, b: Bits, wanted: Bits, mayWait: bool)
    requires AllUnsatisfied(g) && wanted != {}
    ensures AllUnsatisfied(Sync(g, t, b, wanted, mayWait).0)
  {
    var r := SetBits(g, b).0;
    SetBitsUnsatisfied(g, b);
    FewerBitsUnsatisfied(r, r.bits - wanted);
    var w := Waiter(t, wanted, true, true);
    if Satisfied(w, r.bits) {
      ConditionsAreMonotone(w, r.bits, g.bits + b);
    }
  }

  predicate Possible(g: Group, calls: seq<Call>)
    decreases |calls|
  {
    calls == [] || (Enabled(g, calls[0]) && Possible(Perform(g, calls[0]), calls[1..]))
  }

  function Run(g: Group, calls: seq<Call>): Group
    requires Possible(g, calls)
    decreases |calls|
  {
    if calls == [] then g else Run(Perform(g, calls[0]), calls[1..])
  }

  lemma {:induction false} RunUnsatisfied(g: Group, calls: seq<Call>)
    requires AllUnsatisfied(g) && Possible(g, calls)
    ensures AllUnsatisfied(Run(g, calls))
    decreases |calls|
  {
    if calls != [] {
      PerformUnsatisfied(g, calls[0]);
      RunUnsatisfied(Perform(g, calls[0]), calls[1..]);
    }
  }

  /**
   In every reachable state of an event group, no bit is set that a waiter for any bit waits for, and
   every waiter for all of its bits lacks one.
   */
  lemma NeverWaitsOnSatisfied(calls: seq<Call>, w: Waiter)
    requires Possible(Group({}, []), calls) && w in Run(Group({}, []), calls).waiters
    ensures var bits := Run(Group({}, []), calls).bits;
      && (!w.all ==> forall b :: b in w.bits ==> b !in bits)
      && (w.all ==> exists b :: b in w.bits && b !in bits)
  {
    RunUnsatisfied(Group({}, []), calls);
    ConditionBitByBit(w, Run(Group({}, []), calls).bits);
  }

  // ---- The traversal ----

  /** One waiter's part in what setting bits does. */
  lemma Unfold(waiters: seq<Waiter>, bits: Bits)
    requires waiters != []
    ensures var w, rest := waiters[0], waiters[1..];
      && Remaining(waiters, bits) == (if Satisfied(w, bits) then [] else [w]) + Remaining(rest, bits)
      && WokenBy(waiters, bits) == (if Satisfied(w, bits) then [Woken(w.task, bits)] else []) + WokenBy(rest, bits)
      && Cleared(waiters, bits) == (if Satisfied(w, bits) && w.clearOnExit then w.bits else {}) + Cleared(rest, bits)
  {
  }

  lemma NothingLeft(bits: Bits)
    ensures Remaining([], bits) == [] && WokenBy([], bits) == [] && Cleared([], bits) == {}
  {
  }

  class EventGroup {
    var bits: Bits
    var waiters: seq<Waiter>

    function View(): Group
      reads this
    {
      Group(bits, waiters)
    }

    constructor ()
      ensures View() == Group({}, []) && AllUnsatisfied(View())
    {
      bits, waiters := {}, [];
    }

    /** xEventGroupSetBits: removes satisfied waiters while walking the list, and clears bits at the end. */
    method SetEventBits(b: Bits) returns (after: Bits, woken: seq<Woken>)
      modifies this
      ensures (View(), woken) == SetBits(old(View()), b) && after == bits
    {
      hide Remaining, WokenBy, Cleared, Satisfied;
      bits := bits + b;
      var toClear: Bits := {};
      woken := [];
      var i := 0;
      while i < |waiters|
        invariant i <= |waiters| && bits == old(bits) + b
        invariant waiters[..i] + Remaining(waiters[i..], bits) == Remaining(old(waiters), bits)
        invariant woken + WokenBy(waiters[i..], bits) == WokenBy(old(waiters), bits)
        invariant toClear + Cleared(waiters[i..], bits) == Cleared(old(waiters), bits)
        decreases |waiters| - i
      {
        var w := waiters[i];
        assert waiters[i..][1..] == waiters[i + 1..];
        Unfold(waiters[i..], bits);
        if Satisfied(w, bits) {
          if w.clearOnExit {
            toClear := toClear + w.bits;
          }
          woken := woken + [Woken(w.task, bits)];
          ghost var before := waiters;
          waiters := waiters[..i] + waiters[i + 1..];
          assert waiters[i..] == before[i + 1..] && waiters[..i] == before[..i];
        } else {
          assert waiters[..i + 1] == waiters[..i] + [w];
          i := i + 1;
        }
      }
      assert waiters[..i] + [] == waiters && waiters[i..] == [] && woken + [] == woken;
      NothingLeft(bits);
      bits := bits - toClear;
      after := bits;
    }

    /** xEventGroupClearBits returns the bits from before. */
    method ClearEventBits(b: Bits) returns (before: Bits)
      modifies this
      ensures View() == ClearBits(old(View()), b) && before == old(bits)
    {
      before := bits;
      bits := bits - b;
    }

    /** xEventGroupWaitBits, up to where it blocks. */
    method WaitEventBits(w: Waiter, mayWait: bool) returns (outcome: Outcome)
      modifies this
      ensures (View(), outcome) == WaitBits(old(View()), w, mayWait)
    {
      var current := bits;
      if Satisfied(w, current) {
        if w.clearOnExit {
          bits := bits - w.bits;
        }
        outcome := Returned(current);
      } else if !mayWait {
        outcome := Returned(current);
      } else {
        waiters := waiters + [w];
        outcome := Blocked;
      }
    }

    /** xEventGroupSync, up to where it blocks. */
    method SyncEventBits(t: Task, toSet: Bits, wanted: Bits, mayWait: bool)
      returns (outcome: Outcome, woken: seq<Woken>)
      modifies this
      ensures (View(), outcome, woken) == Sync(old(View()), t, toSet, wanted, mayWait)
    {
      var original := bits;
      var after: Bits;
      after, woken := SetEventBits(toSet);
      if (original + toSet) * wanted == wanted {
        outcome := Returned(original + toSet);
        bits := bits - wanted;
      } else if mayWait {
        waiters := waiters + [Waiter(t, wanted, true, true)];
        outcome := Blocked;
      } else {
        outcome := Returned(bits);
      }
    }
  }
}
