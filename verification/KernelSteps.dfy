/** Every scheduler call keeps the invariant. */
module KernelSteps {
  import opened SeqLists
  import opened RoundRobin
  import opened Kernel
  import opened KernelInvariant

  ghost predicate LinkedBut(tcbs: map<Task, Tcb>, t: Task) {
    t in tcbs && tcbs[t].container == Nowhere && forall u :: u in tcbs && u != t ==> tcbs[u].container != Nowhere
  }

  /** The state between taking t out of its list and putting it into another. */
  ghost predicate Detached(s: State, t: Task) {
    && Core(s) && LinkedBut(s.tcbs, t) && InWakeOrder(s.tcbs, s.lists)
    && BitsAgree(s.lists, s.bitmap, s.top, s.levels)
    && s.total == |s.tcbs| && s.deleted == |Of(s.lists, Terminating).items|
    && (s.idle == t || s.tcbs[s.idle].container.Ready?)
  }

  // ---- Taking a task out ----

  lemma UnlinkOrder(s: State, t: Task)
    requires Core(s) && InWakeOrder(s.tcbs, s.lists) && t in s.tcbs
    ensures InWakeOrder(Unlink(s, t).tcbs, Unlink(s, t).lists)
  {
    var s1 := Unlink(s, t);
    UnlinkCore(s, t);
    forall b ensures Ascending(Wakes(s1.tcbs, Of(s1.lists, Timed(b)).items)) {
      var items := Of(s.lists, Timed(b)).items;
      WithoutAscending(s.tcbs, items, t);
      WakesFrame(s.tcbs, Without(items, t), t, s1.tcbs[t]);
    }
  }

  lemma UnlinkFields(s: State, t: Task)
    requires t in s.tcbs
    ensures Unlink(s, t) == s.(tcbs := s.tcbs[t := s.tcbs[t].(container := Nowhere)], lists := Unlink(s, t).lists)
    ensures UnlinkReset(s, t) == Unlink(s, t).(bitmap := UnlinkReset(s, t).bitmap)
  {
  }

  lemma UnlinkBits(s: State, t: Task)
    requires Core(s) && BitsAgree(s.lists, s.bitmap, s.top, s.levels) && t in s.tcbs
    ensures BitsAgree(Unlink(s, t).lists, UnlinkReset(s, t).bitmap, s.top, s.levels)
  {
    hide Linked, EventsAgree, Without;
    UnlinkCore(s, t);
    var s1, p, l := Unlink(s, t), s.tcbs[t].priority, s.tcbs[t].container;
    forall q ensures q in UnlinkReset(s, t).bitmap <==> Of(s1.lists, Ready(q)).items != [] {
      if Ready(q) != l {
        NotListed(s, t, Ready(q));
        Absent(Of(s.lists, Ready(q)).items, t);
      } else {
        LevelIsPriority(s, t);
      }
    }
  }

  lemma Absent(items: seq<Task>, t: Task)
    requires t !in items
    ensures Without(items, t) == items
  {
  }

  lemma LevelIsPriority(s: State, t: Task)
    requires Core(s) && t in s.tcbs && s.tcbs[t].container.Ready?
    ensures s.tcbs[t].container == Ready(s.tcbs[t].priority)
    ensures Of(s.lists, s.tcbs[t].container).items != []
  {
  }

  lemma Detach(s: State, t: Task)
    requires Settled(s) && t in s.tcbs && s.tcbs[t].container != Terminating
    ensures Detached(UnlinkReset(s, t), t)
  {
    hide Linked, EventsAgree, InWakeOrder, BitsAgree, Unlink, UnlinkReset, Without;
    UnlinkFields(s, t);
    UnlinkCore(s, t);
    UnlinkOrder(s, t);
    UnlinkBits(s, t);
    NotListed(s, t, Terminating);
    Absent(Of(s.lists, Terminating).items, t);
  }

  lemma DetachedClear(s: State, t: Task)
    requires Detached(s, t)
    ensures Detached(ClearEvent(s, t), t)
  {
    hide Linked, EventsAgree, BitsAgree;
    ClearEventCore(s, t);
    SameWakes(s, t, s.tcbs[t].(event := Free));
  }

  lemma SameWakes(s: State, t: Task, b: Tcb)
    requires Core(s) && t in s.tcbs && InWakeOrder(s.tcbs, s.lists)
    requires b.wake == s.tcbs[t].wake || s.tcbs[t].container == Nowhere
    ensures InWakeOrder(s.tcbs[t := b], s.lists)
  {
    forall c ensures Ascending(Wakes(s.tcbs[t := b], Of(s.lists, Timed(c)).items)) {
      if s.tcbs[t].container == Nowhere {
        NotListed(s, t, Timed(c));
      }
      WakesFrame(s.tcbs, Of(s.lists, Timed(c)).items, t, b);
    }
  }

  /** While it is in no list, a task's priority, wake time and notification state are free to change. */
  lemma DetachedWith(s: State, t: Task, b: Tcb)
    requires Detached(s, t) && b.container == Nowhere && b.event == s.tcbs[t].event && b.priority < s.levels
    ensures Detached(With(s, t, b), t)
  {
    hide BitsAgree, InWakeOrder, Linked, EventsAgree;
    SameWakes(s, t, b);
    LooseLinks(s, t, b);
    SameEvents(s.tcbs, s.pending, t, b);
  }

  lemma LooseLinks(s: State, t: Task, b: Tcb)
    requires Core(s) && t in s.tcbs && s.tcbs[t].container == Nowhere == b.container && b.priority < s.levels
    ensures Linked(s.tcbs[t := b], s.lists, s.levels)
  {
    hide EventsAgree;
  }

  lemma SameEvents(tcbs: map<Task, Tcb>, pending: seq<Task>, t: Task, b: Tcb)
    requires EventsAgree(tcbs, pending) && t in tcbs && b.event == tcbs[t].event && b.container == tcbs[t].container
    ensures EventsAgree(tcbs[t := b], pending)
  {
  }

  // ---- Putting a task in ----

  lemma AppendFields(s: State, t: Task, l: ListId)
    requires t in s.tcbs
    ensures Append(s, t, l) == s.(tcbs := s.tcbs[t := s.tcbs[t].(container := l)], lists := Append(s, t, l).lists)
    ensures forall k :: k != l ==> Of(Append(s, t, l).lists, k) == Of(s.lists, k)
  {
  }

  lemma AddLength(w: Round<Task>, t: Task)
    ensures |Add(w, t).items| == |w.items| + 1
  {
  }

  lemma NoneLoose(tcbs: map<Task, Tcb>, t: Task, l: ListId)
    requires LinkedBut(tcbs, t) && l != Nowhere
    ensures t in tcbs && tcbs[t].container == Nowhere && NoLoose(tcbs[t := tcbs[t].(container := l)])
  {
  }

  lemma JoinReady(s: State, t: Task)
    requires Detached(s, t) && s.tcbs[t].event != OnObject
    ensures Settled(Readied(s, t))
  {
    hide Linked, EventsAgree, InWakeOrder, BitsAgree, NoLoose, LinkedBut, Append;
    NoneLoose(s.tcbs, t, Suspended);
    var p := s.tcbs[t].priority;
    NoneLoose(s.tcbs, t, Ready(p));
    var s1 := s.(top := if p > s.top then p else s.top, bitmap := s.bitmap + {p});
    AppendCore(s1, t, Ready(p));
    AppendFields(s1, t, Ready(p));
    OtherOrder(s1, t, Ready(p));
    JoinBits(s, t);
  }

  lemma JoinBits(s: State, t: Task)
    requires Core(s) && t in s.tcbs && BitsAgree(s.lists, s.bitmap, s.top, s.levels)
    ensures var r := Readied(s, t); BitsAgree(r.lists, r.bitmap, r.top, s.levels)
  {
    hide Linked, EventsAgree, Add;
    LevelBound(s, t);
    var w := Of(s.lists, Ready(s.tcbs[t].priority));
    OfUpdate(s.lists, Ready(s.tcbs[t].priority), Add(w, t));
    AddLength(w, t);
  }

  lemma LevelBound(s: State, t: Task)
    requires Core(s) && t in s.tcbs
    ensures s.tcbs[t].priority < s.levels
  {
  }

  lemma OtherOrder(s: State, t: Task, l: ListId)
    requires Core(s) && t in s.tcbs && InWakeOrder(s.tcbs, s.lists) && !l.Timed?
    ensures InWakeOrder(Append(s, t, l).tcbs, Append(s, t, l).lists)
  {
    hide Linked, EventsAgree;
    var s1 := Append(s, t, l);
    AppendFields(s, t, l);
    forall b ensures Ascending(Wakes(s1.tcbs, Of(s1.lists, Timed(b)).items)) {
      WakesFrame(s.tcbs, Of(s.lists, Timed(b)).items, t, s1.tcbs[t]);
    }
  }

  lemma JoinSuspended(s: State, t: Task)
    requires Detached(s, t) && t != s.idle
    ensures Settled(Append(s, t, Suspended))
  {
    hide Linked, EventsAgree, InWakeOrder, Add;
    AppendCore(s, t, Suspended);
    AppendFields(s, t, Suspended);
    OtherOrder(s, t, Suspended);
  }

  lemma JoinTerminating(s: State, t: Task)
    requires Detached(s, t) && t != s.idle && s.tcbs[t].event == Free
    ensures Settled(Append(s, t, Terminating).(deleted := s.deleted + 1))
  {
    hide Linked, EventsAgree, InWakeOrder, Add;
    AppendCore(s, t, Terminating);
    AppendFields(s, t, Terminating);
    AddLength(Of(s.lists, Terminating), t);
    OtherOrder(s, t, Terminating);
  }

  lemma InsertFields(s: State, t: Task, l: ListId)
    requires t in s.tcbs
    ensures InsertByWake(s, t, l) ==
            s.(tcbs := s.tcbs[t := s.tcbs[t].(container := l)], lists := InsertByWake(s, t, l).lists)
    ensures forall k :: k != l ==> Of(InsertByWake(s, t, l).lists, k) == Of(s.lists, k)
  {
  }

  lemma JoinTimed(s: State, t: Task, second: bool)
    requires Detached(s, t) && t != s.idle
    ensures Settled(InsertByWake(s, t, Timed(second)))
  {
    hide Linked, EventsAgree, BitsAgree;
    var l := Timed(second);
    InsertCore(s, t, l);
    InsertFields(s, t, l);
    var s1 := InsertByWake(s, t, l);
    forall b ensures Ascending(Wakes(s1.tcbs, Of(s1.lists, Timed(b)).items)) {
      var items := Of(s.lists, Timed(b)).items;
      InsertAscending(s, t, items);
      WakesFrame(s.tcbs, Of(s1.lists, Timed(b)).items, t, s1.tcbs[t]);
    }
    SameBits(s.lists, s1.lists, l, s.bitmap, s.top, s.levels);
  }

  lemma SameBits(a: Lists, b: Lists, l: ListId, bitmap: set<nat>, top: nat, levels: nat)
    requires BitsAgree(a, bitmap, top, levels) && !l.Ready?
    requires forall k :: k != l ==> Of(b, k) == Of(a, k)
    ensures BitsAgree(b, bitmap, top, levels)
  {
  }

  lemma Forget(s: State, t: Task)
    requires Detached(s, t) && t != s.idle && t != s.current && s.tcbs[t].event == Free
    ensures s.total > 0 && Settled(s.(tcbs := s.tcbs - {t}, total := s.total - 1))
  {
    hide Linked, EventsAgree, BitsAgree, InWakeOrder;
    var tcbs := s.tcbs - {t};
    assert s.tcbs.Keys == tcbs.Keys + {t};
    ForgetOrder(s, t);
    ForgetLinks(s, t);
    ForgetEvents(s, t);
  }

  lemma ForgetLinks(s: State, t: Task)
    requires Core(s) && t in s.tcbs && s.tcbs[t].container == Nowhere
    ensures Linked(s.tcbs - {t}, s.lists, s.levels)
  {
    hide EventsAgree;
  }

  lemma ForgetEvents(s: State, t: Task)
    requires Core(s) && t in s.tcbs && s.tcbs[t].event == Free
    ensures EventsAgree(s.tcbs - {t}, s.pending)
  {
    hide Linked;
  }

  lemma ForgetOrder(s: State, t: Task)
    requires Core(s) && InWakeOrder(s.tcbs, s.lists) && t in s.tcbs && s.tcbs[t].container == Nowhere
    ensures InWakeOrder(s.tcbs - {t}, s.lists)
  {
    forall b ensures Ascending(Wakes(s.tcbs - {t}, Of(s.lists, Timed(b)).items)) {
      NotListed(s, t, Timed(b));
      assert Wakes(s.tcbs - {t}, Of(s.lists, Timed(b)).items) == Wakes(s.tcbs, Of(s.lists, Timed(b)).items);
    }
  }
}
