/**
 The circular doubly linked list of list.c, with its nodes in the heap.  The ghost sequence `nodes`
 is the list read from its head, without the end marker; every operation is specified on it.
 */
module KernelList {
  import opened RoundRobin
  import opened SeqLists

  /** A list item.  The end marker is a node that belongs to no container. */
  class Node {
    var value: nat
    var next: Node?
    var prev: Node?
    var container: List?

    constructor (value: nat)
      ensures this.value == value && container == null
    {
      this.value, next, prev, container := value, null, null, null;
    }
  }

  /** Each node's successor is the next in the ring, except at index `but`. */
  ghost predicate Forward(ring: seq<Node>, but: int)
    reads ring
  {
    forall i {:trigger ring[i].next} :: 0 <= i < |ring| - 1 && i != but ==> ring[i].next == ring[i + 1]
  }

  /** Each node's predecessor is the one before it in the ring, except at index `but`. */
  ghost predicate Backward(ring: seq<Node>, but: int)
    reads ring
  {
    forall i {:trigger ring[i].prev} :: 0 < i < |ring| && i != but ==> ring[i].prev == ring[i - 1]
  }

  /** Four links make ring position q, otherwise cut, run through x. */
  lemma SpliceIn(ring: seq<Node>, q: nat, x: Node)
    requires 0 < q < |ring|
    requires Forward(ring, q - 1) && Backward(ring, q)
    requires ring[q - 1].next == x && x.next == ring[q] && ring[q].prev == x && x.prev == ring[q - 1]
    ensures Forward(InsertAt(ring, q, x), -1) && Backward(InsertAt(ring, q, x), -1)
  {
    var r := InsertAt(ring, q, x);
    forall i | 0 <= i < |r| - 1 ensures r[i].next == r[i + 1] {
      if i < q - 1 {
        assert r[i] == ring[i] && r[i + 1] == ring[i + 1];
      } else if i > q {
        assert r[i] == ring[i - 1] && r[i + 1] == ring[i];
      }
    }
    forall i | 0 < i < |r| ensures r[i].prev == r[i - 1] {
      if i < q {
        assert r[i] == ring[i] && r[i - 1] == ring[i - 1];
      } else if i > q + 1 {
        assert r[i] == ring[i - 1] && r[i - 1] == ring[i - 2];
      }
    }
  }

  /** Two links make the ring bypass position q. */
  lemma SpliceOut(ring: seq<Node>, q: nat)
    requires 0 < q < |ring| - 1
    requires Forward(ring, q - 1) && Backward(ring, q + 1)
    requires ring[q - 1].next == ring[q + 1] && ring[q + 1].prev == ring[q - 1]
    ensures Forward(RemoveAt(ring, q), -1) && Backward(RemoveAt(ring, q), -1)
  {
    var r := RemoveAt(ring, q);
    forall i | 0 <= i < |r| - 1 ensures r[i].next == r[i + 1] {
      if i < q - 1 {
        assert r[i] == ring[i] && r[i + 1] == ring[i + 1];
      } else if i >= q {
        assert r[i] == ring[i + 1] && r[i + 1] == ring[i + 2];
      }
    }
    forall i | 0 < i < |r| ensures r[i].prev == r[i - 1] {
      if i < q {
        assert r[i] == ring[i] && r[i - 1] == ring[i - 1];
      } else if i > q {
        assert r[i] == ring[i + 1] && r[i - 1] == ring[i];
      }
    }
  }

  /** Only the end marker, first and last, occurs twice in a ring. */
  ghost predicate RingShape(ring: seq<Node>) {
    |ring| >= 2 && forall i, j :: 0 <= i < j < |ring| && (i != 0 || j != |ring| - 1) ==> ring[i] != ring[j]
  }

  /** The pointer writes shared by vListInsert and vListInsertEnd: x goes in just after `at`. */
  method Link(x: Node, at: Node, ghost ring: seq<Node>, ghost q: nat)
    requires RingShape(ring) && 0 < q < |ring| && x !in ring && at == ring[q - 1]
    requires Forward(ring, -1) && Backward(ring, -1)
    modifies x`next, x`prev, (set n | n in ring)`next, (set n | n in ring)`prev
    ensures Forward(InsertAt(ring, q, x), -1) && Backward(InsertAt(ring, q, x), -1)
  {
    assert ring[q - 1].next == ring[q];
    x.next := at.next;
    x.next.prev := x;
    x.prev := at;
    at.next := x;
    assert Forward(ring, q - 1) && Backward(ring, q);
    SpliceIn(ring, q, x);
  }

  /** The writes of uxListRemove to the items. */
  method Unlink(x: Node, ghost ring: seq<Node>, ghost q: nat)
    requires RingShape(ring) && 0 < q < |ring| - 1 && x == ring[q]
    requires Forward(ring, -1) && Backward(ring, -1)
    modifies x`container, (set n | n in ring)`next, (set n | n in ring)`prev
    ensures Forward(RemoveAt(ring, q), -1) && Backward(RemoveAt(ring, q), -1)
    ensures x.container == null && x.prev == ring[q - 1]
  {
    assert ring[q].next == ring[q + 1] && ring[q].prev == ring[q - 1];
    x.next.prev := x.prev;
    x.prev.next := x.next;
    x.container := null;
    assert Forward(ring, q - 1) && Backward(ring, q + 1);
    SpliceOut(ring, q);
  }

  /** What a ring looks like once x is out of it. */
  lemma TakenOut(end: Node, nodes: seq<Node>, x: Node)
    requires NoDup(nodes) && end !in nodes && x in nodes
    ensures var p, rest := IndexOf(nodes, x), Without(nodes, x);
      && NoDup(rest) && |rest| == |nodes| - 1
      && (forall n :: n in rest ==> n in nodes && n != x)
      && (forall n :: n in nodes && n != x ==> n in rest)
      && ([end] + nodes + [end])[p + 1] == x
      && [end] + rest + [end] == RemoveAt([end] + nodes + [end], p + 1)
      && (([end] + nodes + [end])[p] == end || ([end] + nodes + [end])[p] in rest)
  {
    WithoutMembers(nodes, x);
    RingWithout([end], nodes, IndexOf(nodes, x));
  }

  lemma RingWithout<T>(end: seq<T>, s: seq<T>, p: nat)
    requires |end| == 1 && p < |s|
    ensures (end + s + end)[p + 1] == s[p]
    ensures end + RemoveAt(s, p) + end == RemoveAt(end + s + end, p + 1)
    ensures (end + s + end)[p] == if p == 0 then end[0] else RemoveAt(s, p)[p - 1]
  {
    var ring := end + s + end;
    assert ring[..p + 1] == end + s[..p];
    assert ring[p + 2..] == s[p + 1..] + end;
  }

  ghost function Position(end: Node, nodes: seq<Node>, index: Node): (k: nat)
    requires index == end || index in nodes
    ensures k <= |nodes| && index == ([end] + nodes + [end])[k]
  {
    if index == end then 0 else 1 + IndexOf(nodes, index)
  }

  /** Where the index stands once x is gone. */
  lemma CursorAfter(end: Node, nodes: seq<Node>, x: Node, index: Node)
    requires NoDup(nodes) && end !in nodes && x in nodes && (index == end || index in nodes)
    ensures var p, rest := IndexOf(nodes, x), Without(nodes, x);
      var index' := if index == x then ([end] + nodes + [end])[p] else index;
      && (index' == end || index' in rest)
      && Drop(Walk(nodes, Position(end, nodes, index)), x) == Walk(rest, Position(end, rest, index'))
  {
    TakenOut(end, nodes, x);
    var p, rest, k := IndexOf(nodes, x), Without(nodes, x), Position(end, nodes, index);
    assert rest == RemoveAt(nodes, p) && Drop(Walk(nodes, k), x).items == rest;
    hide Without, RemoveAt, IndexOf;
    if index == x {
      if p > 0 {
        RemovedAt(nodes, p, p - 1);
        IndexIs(rest, nodes[p - 1], p - 1);
      }
    } else if index != end {
      RemovedAt(nodes, p, k - 1);
      IndexIs(rest, index, if k - 1 < p then k - 1 else k - 2);
    }
  }

  /** An insertion leaves the index on its node. */
  lemma CursorPut(end: Node, nodes: seq<Node>, p: nat, x: Node, index: Node)
    requires NoDup(nodes) && end !in nodes && x !in nodes && x != end && p <= |nodes|
    requires index == end || index in nodes
    ensures index == end || index in InsertAt(nodes, p, x)
    ensures Walk(InsertAt(nodes, p, x), Position(end, InsertAt(nodes, p, x), index))
            == Put(Walk(nodes, Position(end, nodes, index)), p, x)
  {
    InsertAtMembers(nodes, p, x);
    if index != end {
      var k := IndexOf(nodes, index);
      InsertedAt(nodes, p, x, k);
      IndexIs(InsertAt(nodes, p, x), index, if k < p then k else k + 1);
    }
  }

  class List {
    const maxDelay: nat
    const end: Node
    var index: Node
    var count: nat
    ghost var nodes: seq<Node>

    /** The nodes met on one trip round the list, end marker first and last. */
    ghost function Ring(): seq<Node>
      reads this
    {
      [end] + nodes + [end]
    }

    ghost function Members(): set<Node>
      reads this
    {
      {end} + set n | n in nodes
    }

    ghost predicate Valid()
      reads this, Members()
    {
      && count == |nodes|
      && NoDup(nodes) && end !in nodes
      && (index == end || index in nodes)
      && end.value == maxDelay
      && (forall n :: n in nodes ==> n.container == this && n.value <= maxDelay)
      && Forward(Ring(), -1) && Backward(Ring(), -1)
    }

    ghost function Values(): (v: seq<nat>)
      reads this, Members()
      ensures |v| == |nodes| && forall i :: 0 <= i < |v| ==> v[i] == nodes[i].value
    {
      seq(|nodes|, i requires 0 <= i < |nodes| reads this, Members() => nodes[i].value)
    }

    /** Position of pxIndex: 0 at the end marker, k when it is the k-th item. */
    ghost function Cursor(): (k: nat)
      reads this, Members()
      requires Valid()
      ensures k <= |nodes| && index == Ring()[k]
    {
      Position(end, nodes, index)
    }

    /** The list as the walking index sees it. */
    ghost function View(): Round<Node>
      reads this, Members()
      requires Valid()
    {
      Walk(nodes, Cursor())
    }

    /** vListInitialise */
    constructor (maxDelay: nat)
      ensures Valid() && nodes == [] && index == end && fresh(end)
      ensures this.maxDelay == maxDelay
    {
      var marker := new Node(maxDelay);
      this.maxDelay, end, index, count, nodes := maxDelay, marker, marker, 0, [];
      new;
      end.next := end;
      end.prev := end;
    }

    /** The four links written by both insertions, for a node going in just after ring position p. */
    method LinkAfter(x: Node, at: Node, ghost p: nat)
      requires Valid() && x.container == null && x != end && x !in nodes && x.value <= maxDelay
      requires p <= |nodes| && at == Ring()[p]
      modifies this`count, this`nodes, x`next, x`prev, x`container, Members()`next, Members()`prev
      ensures Valid()
      ensures View() == Put(old(View()), p, x)
    {
      CursorPut(end, nodes, p, x, index);
      ghost var ring := Ring();
      Link(x, at, ring, p + 1);
      x.container := this;
      count := count + 1;
      InsertAtMembers(nodes, p, x);
      nodes := InsertAt(nodes, p, x);
      assert Ring() == InsertAt(ring, p + 1, x);
    }

    /** vListInsert: after every item whose value is not greater. */
    method Insert(x: Node)
      requires Valid() && x.container == null && x != end && x.value <= maxDelay
      modifies this`count, this`nodes, x`next, x`prev, x`container, Members()`next, Members()`prev
      ensures Valid()
      ensures View() == Put(old(View()), InsertPos(old(Values()), x.value), x)
    {
      ghost var ring, v := Ring(), Values();
      ghost var p: nat := 0;
      var cursor: Node;
      if x.value == maxDelay {
        p := |nodes|;
        assert ring[|ring| - 1].prev == ring[p];
        cursor := end.prev;
      } else {
        cursor := end;
        assert ring[0].next == ring[1];
        while cursor.next.value <= x.value
          invariant p <= |nodes| && cursor == ring[p] && cursor.next == ring[p + 1]
          invariant forall i :: 0 <= i < p ==> v[i] <= x.value
          decreases |nodes| - p
        {
          cursor := cursor.next;
          p := p + 1;
          assert ring[p].next == ring[p + 1];
        }
      }
      LinkAfter(x, cursor, p);
    }

    /** vListInsertEnd: just before pxIndex, so last in the walk that starts after it. */
    method InsertEnd(x: Node)
      requires Valid() && x.container == null && x != end && x.value <= maxDelay
      modifies this`count, this`nodes, x`next, x`prev, x`container, Members()`next, Members()`prev
      ensures Valid()
      ensures View() == Add(old(View()), x)
    {
      ghost var ring, k := Ring(), Cursor();
      ghost var p := EndPosition(View());
      assert ring[p + 1].prev == ring[p];
      LinkAfter(x, index.prev, p);
    }

    /** uxListRemove, called on the item's own container. */
    method Remove(x: Node) returns (left: nat)
      requires Valid() && x in nodes
      modifies this`count, this`nodes, this`index, x`container, Members()`next, Members()`prev
      ensures Valid() && x.container == null
      ensures View() == Drop(old(View()), x)
      ensures left == |nodes|
    {
      hide Without, RemoveAt, IndexOf, Drop;
      ghost var ring, p, rest := Ring(), IndexOf(nodes, x), Without(nodes, x);
      CursorAfter(end, nodes, x, index);
      TakenOut(end, nodes, x);
      Unlink(x, ring, p + 1);
      if index == x {
        index := x.prev;
      }
      count := count - 1;
      nodes := rest;
      left := count;
    }

    /** listGET_OWNER_OF_NEXT_ENTRY */
    method Next() returns (x: Node)
      requires Valid() && nodes != []
      modifies this`index
      ensures Valid() && index == x
      ensures View() == Advance(old(View())) && x == View().items[View().cursor - 1]
    {
      ghost var ring, k := Ring(), Cursor();
      assert ring[k].next == ring[k + 1];
      index := index.next;
      if index == end {
        assert ring[0].next == ring[1];
        index := index.next;
      }
      x := index;
    }
  }
}
