/** The kernel's lists divide the live tasks among them. */
module KernelPartition {
  import opened SeqLists
  import opened Kernel
  import opened KernelInvariant

  /** In every reachable state a task is in the list its block names, once, and in no other. */
  lemma OneListEach(s: State, t: Task, l: ListId)
    requires Invariant(s) && t in s.tcbs
    ensures t in Of(s.lists, l).items <==> l == s.tcbs[t].container
    ensures l == s.tcbs[t].container ==>
      l in {Ready(s.tcbs[t].priority), Timed(false), Timed(true), Suspended, Terminating}
    ensures NoDup(Of(s.lists, l).items)
    ensures s.suspended == 0 ==> t !in s.pending
  {
    hide EventsAgree, InWakeOrder, BitsAgree, TimesAgree, TopRuns;
  }

  function Elements(items: seq<Task>): set<Task> {
    set x | x in items
  }

  lemma {:induction false} DistinctCount(items: seq<Task>)
    requires NoDup(items)
    ensures |Elements(items)| == |items|
  {
    if items != [] {
      var rest := items[1..];
      assert forall i :: 0 <= i < |rest| ==> rest[i] == items[i + 1];
      DistinctCount(rest);
      assert items == [items[0]] + rest;
      assert Elements(items) == Elements(rest) + {items[0]};
    }
  }

  function In(tcbs: map<Task, Tcb>, l: ListId): set<Task> {
    set t | t in tcbs && tcbs[t].container == l
  }

  lemma ListLength(s: State, l: ListId)
    requires Core(s) && l != Nowhere
    ensures |In(s.tcbs, l)| == |Of(s.lists, l).items|
  {
    DistinctCount(Of(s.lists, l).items);
    assert In(s.tcbs, l) == Elements(Of(s.lists, l).items);
  }

  function ReadyLength(lists: Lists, levels: nat): nat {
    if levels == 0 then 0 else ReadyLength(lists, levels - 1) + |Of(lists, Ready(levels - 1)).items|
  }

  function ReadyBelow(tcbs: map<Task, Tcb>, levels: nat): set<Task> {
    set t | t in tcbs && tcbs[t].container.Ready? && tcbs[t].container.level < levels
  }

  lemma {:induction false} ReadyCount(s: State, levels: nat)
    requires Core(s)
    ensures |ReadyBelow(s.tcbs, levels)| == ReadyLength(s.lists, levels)
  {
    hide Core;
    if levels == 0 {
      assert ReadyBelow(s.tcbs, 0) == {};
    } else {
      ReadyCount(s, levels - 1);
      ListLength(s, Ready(levels - 1));
      assert ReadyBelow(s.tcbs, levels) == ReadyBelow(s.tcbs, levels - 1) + In(s.tcbs, Ready(levels - 1));
    }
  }

  /** uxCurrentNumberOfTasks and uxDeletedTasksWaitingCleanUp count what the lists hold. */
  lemma CountsMatchLists(s: State)
    requires Invariant(s)
    ensures s.total ==
      ReadyLength(s.lists, s.levels) + |Of(s.lists, Timed(false)).items| + |Of(s.lists, Timed(true)).items|
      + |Of(s.lists, Suspended).items| + |Of(s.lists, Terminating).items|
    ensures s.deleted == |Of(s.lists, Terminating).items|
  {
    hide Linked, EventsAgree, InWakeOrder, BitsAgree, NoLoose, TimesAgree, TopRuns;
    AllPlaces(s);
    ReadyCount(s, s.levels);
    ListLength(s, Timed(false));
    ListLength(s, Timed(true));
    ListLength(s, Suspended);
    ListLength(s, Terminating);
    var timed := In(s.tcbs, Timed(false)) + In(s.tcbs, Timed(true));
    var rest := In(s.tcbs, Suspended) + In(s.tcbs, Terminating);
    assert |timed + rest| == |timed| + |rest|;
    assert |ReadyBelow(s.tcbs, s.levels) + (timed + rest)| == |ReadyBelow(s.tcbs, s.levels)| + |timed + rest|;
  }

  lemma AllPlaces(s: State)
    requires Invariant(s)
    ensures s.tcbs.Keys == ReadyBelow(s.tcbs, s.levels) + (In(s.tcbs, Timed(false)) + In(s.tcbs, Timed(true))
                             + (In(s.tcbs, Suspended) + In(s.tcbs, Terminating)))
    ensures s.total == |s.tcbs.Keys| && s.deleted == |Of(s.lists, Terminating).items|
  {
    hide EventsAgree, InWakeOrder, BitsAgree, TimesAgree, TopRuns;
    forall t | t in s.tcbs ensures
      t in ReadyBelow(s.tcbs, s.levels) + (In(s.tcbs, Timed(false)) + In(s.tcbs, Timed(true))
                             + (In(s.tcbs, Suspended) + In(s.tcbs, Terminating)))
    {
      OneListEach(s, t, s.tcbs[t].container);
    }
  }
}
