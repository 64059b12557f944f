/**
 How the walking index pxIndex shares one priority between its ready tasks.  A walk is the list plus
 the index position: 0 when pxIndex is the end marker, k when it is the k-th item, which is then the
 item selected last (or the one before it, if that was removed).
 */
module RoundRobin {
  import opened SeqLists

  datatype AnyWalk<T> = Walk(items: seq<T>, cursor: nat) {
    /** The items in the order in which they would be selected from now on. */
    function Rotation(): seq<T>
      requires cursor <= |items|
    {
      items[cursor..] + items[..cursor]
    }
  }

  type Round<T> = w: AnyWalk<T> | w.cursor <= |w.items| witness Walk([], 0)

  /** Just before the index, going round. */
  function EndPosition<T>(w: Round<T>): nat {
    if w.cursor == 0 then |w.items| else w.cursor - 1
  }

  /** vListInsertEnd */
  function Add<T>(w: Round<T>, x: T): Round<T> {
    Walk(InsertAt(w.items, EndPosition(w), x), if w.cursor == 0 then 0 else w.cursor + 1)
  }

  /** The walk after an insertion anywhere: the index stays on its item. */
  function Put<T>(w: Round<T>, p: nat, x: T): Round<T>
    requires p <= |w.items|
  {
    Walk(InsertAt(w.items, p, x), if p < w.cursor then w.cursor + 1 else w.cursor)
  }

  /** uxListRemove: an index on the removed item steps back. */
  function Drop<T(==)>(w: Round<T>, x: T): Round<T> {
    if x !in w.items then w else
    var p := IndexOf(w.items, x);
    Walk(RemoveAt(w.items, p), if p < w.cursor then w.cursor - 1 else w.cursor)
  }

  /** listGET_OWNER_OF_NEXT_ENTRY: the index moves on, over the end marker. */
  function Advance<T>(w: Round<T>): Round<T>
    requires w.items != []
  {
    w.(cursor := if w.cursor < |w.items| then w.cursor + 1 else 1)
  }

  /** Selection picks the head of the rotation and sends it to the back. */
  lemma RotationAdvance<T>(w: Round<T>)
    requires w.items != []
    ensures var r := w.Rotation();
      Advance(w).Rotation() == r[1..] + [r[0]] && w.items[Advance(w).cursor - 1] == r[0]
  {
  }

  /** Insertion goes last in the rotation, or last but one behind the item under the index. */
  lemma RotationAdd<T>(w: Round<T>, x: T)
    ensures var r := w.Rotation();
      Add(w, x).Rotation() == if w.cursor == 0 then r + [x] else r[..|r| - 1] + [x] + [r[|r| - 1]]
  {
    if w.cursor > 0 {
      var a := Add(w, x);
      assert a.items[..a.cursor] == w.items[..w.cursor - 1] + [x] + [w.items[w.cursor - 1]];
      assert a.items[a.cursor..] == w.items[w.cursor..];
    }
  }

  lemma NoDupRotation<T>(w: Round<T>)
    requires NoDup(w.items)
    ensures NoDup(w.Rotation())
  {
  }

  /** Removal takes the item out of the rotation and leaves the order of the others alone. */
  lemma RotationDrop<T>(w: Round<T>, x: T)
    requires NoDup(w.items) && x in w.items
    ensures NoDup(Drop(w, x).items)
    ensures Drop(w, x).Rotation() == Without(w.Rotation(), x)
  {
    WithoutMembers(w.items, x);
    var l, r, d := w.items[..w.cursor], w.items[w.cursor..], Drop(w, x);
    assert w.items == l + r;
    DropParts(l, r, x);
    WithoutConcat(r, l, x);
    if x in l {
      RotationParts(Without(l, x), r);
    } else {
      RotationParts(l, Without(r, x));
    }
  }

  lemma RotationParts<T>(l: seq<T>, r: seq<T>)
    ensures Walk(l + r, |l|).Rotation() == r + l
  {
  }

  lemma IndexInConcat<T>(a: seq<T>, b: seq<T>, x: T)
    requires x in a + b
    ensures IndexOf(a + b, x) == if x in a then IndexOf(a, x) else |a| + IndexOf(b, x)
  {
    if a == [] {
      assert a + b == b;
    } else {
      assert (a + b)[1..] == a[1..] + b;
      assert a == [a[0]] + a[1..];
    }
  }

  lemma WithoutConcat<T>(a: seq<T>, b: seq<T>, x: T)
    requires x in a + b
    ensures Without(a + b, x) == if x in a then Without(a, x) + b else a + Without(b, x)
  {
    hide RemoveAt, IndexOf;
    IndexInConcat(a, b, x);
    RemoveFromConcat(a, b, IndexOf(a + b, x));
  }

  lemma RemoveFromConcat<T>(a: seq<T>, b: seq<T>, i: nat)
    requires i < |a| + |b|
    ensures i < |a| ==> RemoveAt(a + b, i) == RemoveAt(a, i) + b
    ensures i >= |a| ==> RemoveAt(a + b, i) == a + RemoveAt(b, i - |a|)
  {
  }

  lemma DropParts<T>(l: seq<T>, r: seq<T>, x: T)
    requires x in l + r
    ensures Drop(Walk(l + r, |l|), x) ==
            if x in l then Walk(Without(l, x) + r, |l| - 1) else Walk(l + Without(r, x), |l|)
  {
    IndexInConcat(l, r, x);
    WithoutConcat(l, r, x);
  }

  lemma IndexIs<T>(s: seq<T>, x: T, i: nat)
    requires NoDup(s) && i < |s| && s[i] == x
    ensures IndexOf(s, x) == i
  {
  }

  datatype Op<T> = Insert(x: T) | Remove(x: T) | Select

  predicate Legal<T(==)>(w: Round<T>, op: Op<T>) {
    match op
    case Insert(x) => x !in w.items
    case Remove(x) => x in w.items
    case Select => w.items != []
  }

  function Step<T(==)>(w: Round<T>, op: Op<T>): Round<T>
    requires Legal(w, op)
  {
    match op
    case Insert(x) => Add(w, x)
    case Remove(x) => Drop(w, x)
    case Select => Advance(w)
  }

  ghost predicate LegalRun<T>(w: Round<T>, ops: seq<Op<T>>)
    decreases |ops|
  {
    ops == [] || (Legal(w, ops[0]) && LegalRun(Step(w, ops[0]), ops[1..]))
  }

  function Selections<T>(ops: seq<Op<T>>): nat {
    if ops == [] then 0 else (if ops[0].Select? then 1 else 0) + Selections(ops[1..])
  }

  /** Some selection of the run picks x. */
  ghost predicate Served<T>(w: Round<T>, ops: seq<Op<T>>, x: T)
    requires LegalRun(w, ops)
    decreases |ops|
  {
    ops != [] &&
    ((ops[0].Select? && w.Rotation()[0] == x) || Served(Step(w, ops[0]), ops[1..], x))
  }

  /** No item is inserted at a moment when the index rests on x. */
  ghost predicate NeverPushed<T>(w: Round<T>, ops: seq<Op<T>>, x: T)
    requires LegalRun(w, ops)
    decreases |ops|
  {
    ops != [] ==>
      && (ops[0].Insert? && w.cursor > 0 ==> w.items[w.cursor - 1] != x)
      && NeverPushed(Step(w, ops[0]), ops[1..], x)
  }

  /** Number of selections that come before x when nothing else happens. */
  function Rank<T(==)>(w: Round<T>, x: T): (k: nat)
    requires x in w.items
  {
    var p := IndexOf(w.items, x);
    if p < w.cursor then p + |w.items| - w.cursor else p - w.cursor
  }

  /** One step away from x: only a selection moves it up for certain, only a push moves it back. */
  lemma RankStep<T>(w: Round<T>, op: Op<T>, x: T)
    requires NoDup(w.items) && x in w.items && Legal(w, op) && op != Remove(x)
    requires op.Select? ==> w.Rotation()[0] != x
    requires op.Insert? && w.cursor > 0 ==> w.items[w.cursor - 1] != x
    ensures NoDup(Step(w, op).items) && x in Step(w, op).items
    ensures Rank(Step(w, op), x) <= Rank(w, x) - (if op.Select? then 1 else 0)
    ensures IndexOf(w.items, x) >= w.cursor ==> IndexOf(Step(w, op).items, x) >= Step(w, op).cursor
  {
    match op
    case Insert(y) => RankInsert(w, y, x);
    case Remove(y) => RankRemove(w, y, x);
    case Select =>
  }

  lemma RankInsert<T>(w: Round<T>, y: T, x: T)
    requires NoDup(w.items) && x in w.items && y !in w.items
    requires w.cursor > 0 ==> w.items[w.cursor - 1] != x
    ensures NoDup(Add(w, y).items) && x in Add(w, y).items
    ensures Rank(Add(w, y), x) <= Rank(w, x)
    ensures IndexOf(w.items, x) >= w.cursor <==> IndexOf(Add(w, y).items, x) >= Add(w, y).cursor
  {
    var p, at := IndexOf(w.items, x), EndPosition(w);
    InsertAtMembers(w.items, at, y);
    InsertedAt(w.items, at, y, p);
    IndexIs(InsertAt(w.items, at, y), x, if p < at then p else p + 1);
  }

  lemma RankRemove<T>(w: Round<T>, y: T, x: T)
    requires NoDup(w.items) && x in w.items && y in w.items && x != y
    ensures NoDup(Drop(w, y).items) && x in Drop(w, y).items
    ensures Rank(Drop(w, y), x) <= Rank(w, x)
    ensures IndexOf(w.items, x) >= w.cursor <==> IndexOf(Drop(w, y).items, x) >= Drop(w, y).cursor
  {
    WithoutMembers(w.items, y);
    var p, at := IndexOf(w.items, x), IndexOf(w.items, y);
    RemovedAt(w.items, at, p);
    IndexIs(RemoveAt(w.items, at), x, if p < at then p else p - 1);
  }

  /** A task is selected within Rank + 1 selections of any run that never pushes it back. */
  lemma {:induction false} BoundedWait<T>(w: Round<T>, ops: seq<Op<T>>, x: T)
    requires NoDup(w.items) && x in w.items
    requires LegalRun(w, ops) && Remove(x) !in ops && NeverPushed(w, ops, x)
    requires Selections(ops) > Rank(w, x)
    ensures Served(w, ops, x)
    decreases |ops|
  {
    if !(ops[0].Select? && w.Rotation()[0] == x) {
      RankStep(w, ops[0], x);
      BoundedWait(Step(w, ops[0]), ops[1..], x);
    }
  }

  /** A task still ahead of the index cannot be pushed back before it is selected. */
  lemma {:induction false} BoundedWaitAhead<T>(w: Round<T>, ops: seq<Op<T>>, x: T)
    requires NoDup(w.items) && x in w.items && IndexOf(w.items, x) >= w.cursor
    requires LegalRun(w, ops) && Remove(x) !in ops
    requires Selections(ops) > Rank(w, x)
    ensures Served(w, ops, x)
    decreases |ops|
  {
    if !(ops[0].Select? && w.Rotation()[0] == x) {
      RankStep(w, ops[0], x);
      BoundedWaitAhead(Step(w, ops[0]), ops[1..], x);
    }
  }

  function Row<T>(n: nat): (r: seq<Op<T>>)
    ensures Selections(r) == n
  {
    if n == 0 then [] else [Select] + Row(n - 1)
  }

  /** n selections in a row pick the first n of the rotation. */
  lemma {:induction false} SelectionsInARow<T>(w: Round<T>, n: nat, x: T)
    requires NoDup(w.items) && n <= |w.items| && x !in w.Rotation()[..n]
    ensures LegalRun(w, Row(n)) && !Served(w, Row(n), x) && Remove(x) !in Row(n)
    decreases n
  {
    hide NoDup, Rank, InsertAt;
    if n > 0 {
      RotationAdvance(w);
      assert Advance(w).Rotation()[..n - 1] == w.Rotation()[1..n];
      SelectionsInARow(Advance(w), n - 1, x);
      assert Row<T>(n)[1..] == Row(n - 1);
    }
  }

  /** Distinct items, none of them in the list. */
  ghost predicate New<T>(w: Round<T>, newcomers: seq<T>) {
    NoDup(newcomers) && forall y :: y in newcomers ==> y !in w.items
  }

  /** With the index on x, each insertion puts one more selection before x. */
  lemma {:induction false} PushBack<T>(w: Round<T>, x: T, newcomers: seq<T>) returns (ops: seq<Op<T>>)
    requires NoDup(w.items) && w.cursor > 0 && w.items[w.cursor - 1] == x && New(w, newcomers)
    ensures LegalRun(w, ops) && Remove(x) !in ops && !Served(w, ops, x)
    ensures Selections(ops) == |w.items| - 1 + |newcomers|
    decreases |newcomers|
  {
    if newcomers == [] {
      NoDupRotation(w);
      assert w.Rotation()[|w.items| - 1] == x;
      SelectionsInARow(w, |w.items| - 1, x);
      ops := Row(|w.items| - 1);
    } else {
      var y, pushed := newcomers[0], Add(w, newcomers[0]);
      InsertAtMembers(w.items, EndPosition(w), y);
      assert forall i :: 0 <= i < |newcomers| - 1 ==> newcomers[1..][i] == newcomers[i + 1];
      var rest := PushBack(pushed, x, newcomers[1..]);
      ops := [Insert(y)] + rest;
      assert ops[1..] == rest;
    }
  }

  /**
   Behind the index, removals can bring the index back onto x, and any number of insertions then push it
   back, one selection each.
   */
  lemma {:induction false} CanBePushed<T>(w: Round<T>, x: T, newcomers: seq<T>) returns (ops: seq<Op<T>>)
    requires NoDup(w.items) && x in w.items && IndexOf(w.items, x) < w.cursor && New(w, newcomers)
    ensures LegalRun(w, ops) && Remove(x) !in ops && !Served(w, ops, x)
    ensures Selections(ops) == Rank(w, x) + |newcomers|
    decreases w.cursor
  {
    var p := IndexOf(w.items, x);
    if p == w.cursor - 1 {
      ops := PushBack(w, x, newcomers);
    } else {
      var y := w.items[w.cursor - 1];
      IndexIs(w.items, y, w.cursor - 1);
      WithoutMembers(w.items, y);
      IndexIs(RemoveAt(w.items, w.cursor - 1), x, p);
      var rest := CanBePushed(Drop(w, y), x, newcomers);
      ops := [Remove(y)] + rest;
      assert ops[1..] == rest;
    }
  }

  /**
   Exactly when the list alone guarantees a bounded wait: every run with more than Rank selections
   serves x if and only if x has not yet been passed by the index on this lap.
   */
  lemma BoundedWaitIff<T>(w: Round<T>, x: T, newcomer: T)
    requires NoDup(w.items) && x in w.items && newcomer !in w.items
    ensures IndexOf(w.items, x) >= w.cursor <==>
      forall ops :: LegalRun(w, ops) && Remove(x) !in ops && Selections(ops) > Rank(w, x) ==> Served(w, ops, x)
  {
    if IndexOf(w.items, x) >= w.cursor {
      forall ops | LegalRun(w, ops) && Remove(x) !in ops && Selections(ops) > Rank(w, x)
        ensures Served(w, ops, x)
      {
        BoundedWaitAhead(w, ops, x);
      }
    } else {
      var ops := CanBePushed(w, x, [newcomer]);
      assert !Served(w, ops, x);
    }
  }
}
