/**
 The value-level view of a kernel list: a sequence without its end marker.  Sorted insertion is
 described on the sequence of item values, so that the pointer-level list, the delayed lists and the
 timer lists all share one meaning of "in xItemValue order, after equal values".
 */
module SeqLists {

  function InsertAt<T>(s: seq<T>, p: nat, x: T): (r: seq<T>)
    requires p <= |s|
  {
    s[..p] + [x] + s[p..]
  }

  function RemoveAt<T>(s: seq<T>, p: nat): (r: seq<T>)
    requires p < |s|
  {
    s[..p] + s[p + 1..]
  }

  ghost predicate NoDup<T>(s: seq<T>) {
    forall i, j :: 0 <= i < j < |s| ==> s[i] != s[j]
  }

  /** Index of the first occurrence of x. */
  function IndexOf<T(==)>(s: seq<T>, x: T): (i: nat)
    requires x in s
    ensures i < |s| && s[i] == x && x !in s[..i]
  {
    if s[0] == x then 0 else
      assert s == [s[0]] + s[1..];
      var i := 1 + IndexOf(s[1..], x);
      assert s[..i] == [s[0]] + s[1..][..i - 1];
      i
  }

  /** The sequence with the first occurrence of x taken out, if there is one. */
  function Without<T(==)>(s: seq<T>, x: T): seq<T> {
    if x in s then RemoveAt(s, IndexOf(s, x)) else s
  }

  lemma WithoutMembers<T>(s: seq<T>, x: T)
    requires NoDup(s)
    ensures NoDup(Without(s, x))
    ensures forall y :: y in Without(s, x) <==> y in s && y != x
    ensures |Without(s, x)| == |s| - (if x in s then 1 else 0)
  {
    if x in s {
      var p := IndexOf(s, x);
      var r := RemoveAt(s, p);
      forall y ensures y in r <==> y in s && y != x {
        if y in r {
          var k :| 0 <= k < |r| && r[k] == y;
          assert y == s[if k < p then k else k + 1];
        }
        if y in s && y != x {
          var k :| 0 <= k < |s| && s[k] == y;
          assert y == r[if k < p then k else k - 1];
        }
      }
    }
  }

  /** Where an element of Without(s, x) comes from. */
  function Source<T(==)>(s: seq<T>, x: T, k: nat): nat {
    if x in s && IndexOf(s, x) <= k then k + 1 else k
  }

  lemma WithoutAt<T>(s: seq<T>, x: T, k: nat)
    requires k < |Without(s, x)|
    ensures Source(s, x, k) < |s| && Without(s, x)[k] == s[Source(s, x, k)]
  {
    hide IndexOf;
  }

  lemma InsertAtMembers<T>(s: seq<T>, p: nat, x: T)
    requires p <= |s| && NoDup(s) && x !in s
    ensures NoDup(InsertAt(s, p, x))
    ensures forall y :: y in InsertAt(s, p, x) <==> y in s || y == x
    ensures |InsertAt(s, p, x)| == |s| + 1
  {
    var r := InsertAt(s, p, x);
    forall y ensures y in r <==> y in s || y == x {
      if y in s {
        var k :| 0 <= k < |s| && s[k] == y;
        assert y == r[if k < p then k else k + 1];
      }
      assert r[p] == x;
    }
  }

  /** Taking out what was put in gives the sequence from before. */
  lemma WithoutInserted<T>(w: seq<T>, p: nat, x: T)
    requires p <= |w| && x !in w
    ensures Without(InsertAt(w, p, x), x) == w
  {
    var r := InsertAt(w, p, x);
    assert r[p] == x;
    var i := IndexOf(r, x);
    forall k | 0 <= k < i ensures r[k] != x {
      assert r[..i][k] == r[k];
    }
    forall k | 0 <= k < p ensures r[k] != x {
      assert r[k] == w[k];
    }
  }

  lemma InsertedAt<T>(s: seq<T>, p: nat, x: T, k: nat)
    requires p <= |s| && k < |s|
    ensures |InsertAt(s, p, x)| == |s| + 1
    ensures InsertAt(s, p, x)[if k < p then k else k + 1] == s[k]
  {
  }

  lemma RemovedAt<T>(s: seq<T>, p: nat, k: nat)
    requires p < |s| && k < |s| && k != p
    ensures |RemoveAt(s, p)| == |s| - 1
    ensures RemoveAt(s, p)[if k < p then k else k - 1] == s[k]
  {
  }

  ghost predicate Ascending(v: seq<nat>) {
    forall i, j :: 0 <= i < j < |v| ==> v[i] <= v[j]
  }

  /** The position sorted insertion chooses: before the first value that is greater. */
  function InsertPos(v: seq<nat>, value: nat): (p: nat)
    ensures p <= |v|
    ensures forall i :: 0 <= i < p ==> v[i] <= value
    ensures p < |v| ==> v[p] > value
  {
    if v == [] || v[0] > value then 0 else 1 + InsertPos(v[1..], value)
  }

  /** Sorted insertion keeps the order, and puts the new value after its equals. */
  lemma InsertKeepsOrder(v: seq<nat>, value: nat)
    requires Ascending(v)
    ensures Ascending(InsertAt(v, InsertPos(v, value), value))
    ensures forall i :: InsertPos(v, value) <= i < |v| ==> v[i] > value
  {
  }
}
