/** Tick counts: unbounded times as a counter of a given modulus shows them. */
module TickTime {
  import opened Arith

  type Modulus = n: nat | n > 1 witness 2

  /** A time as the tick count shows it. */
  function Wrap(t: nat, m: Modulus): (w: nat)
    ensures w < m
  {
    t % m
  }

  /** The number of wraps before it. */
  function Epoch(t: nat, m: Modulus): (e: nat) {
    t / m
  }

  /** The unsigned difference of two tick counts. */
  function Elapsed(n: nat, c: nat, m: Modulus): nat
    requires c < m
  {
    if n >= c then n - c else n + m - c
  }

  lemma ElapsedIs(C: nat, N: nat, m: Modulus)
    requires C <= N
    ensures Elapsed(Wrap(N, m), Wrap(C, m), m) == Wrap(N - C, m)
  {
    var d := N - C;
    var q, r := d / m, d % m;
    DivModSum(d, m);
    AddWithin(C, r, m);
    AddMultiple(C + r, q, m);
    assert C + r + q * m == N;
  }
}
