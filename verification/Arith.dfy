/** Division facts that the tick-count and ring-buffer proofs share. */
module Arith {

  lemma MulGrows(k: nat, m: nat)
    ensures (k + 1) * m >= m
  {
  }

  lemma MulNonNegative(a: nat, b: nat)
    ensures a * b >= 0
  {
  }

  /** Only zero is a multiple of m strictly between -m and m. */
  lemma MultipleBelow(d: int, z: int, m: int)
    requires -m < z < m
    requires d * m == z
    ensures d == 0
  {
    if d >= 1 {
      MulGrows(d - 1, m);
    } else if d <= -1 {
      MulGrows(-d - 1, m);
    }
  }

  lemma DivModSum(x: nat, m: nat)
    requires 0 < m
    ensures x == (x / m) * m + x % m
    ensures 0 <= x / m && 0 <= x % m < m
  {
  }

  lemma Distribute(a: int, b: int, m: int)
    ensures (a + b) * m == a * m + b * m
    ensures (a - b) * m == a * m - b * m
  {
  }

  /** A quotient and a remainder determine each other. */
  lemma DivModUnique(x: nat, q: nat, r: nat, m: nat)
    requires r < m
    requires x == q * m + r
    ensures x / m == q && x % m == r
  {
    DivModSum(x, m);
    var q', r' := x / m, x % m;
    Distribute(q', q, m);
    MultipleBelow(q' - q, r - r', m);
  }

  /** Adding less than one modulus either stays in the epoch or enters the next one. */
  lemma AddWithin(x: nat, d: nat, m: nat)
    requires 0 < m && d < m
    ensures x % m + d < m ==> (x + d) / m == x / m && (x + d) % m == x % m + d
    ensures x % m + d >= m ==> (x + d) / m == x / m + 1 && (x + d) % m == x % m + d - m
  {
    DivModSum(x, m);
    var q, r := x / m, x % m;
    if r + d < m {
      DivModUnique(x + d, q, r + d, m);
    } else {
      Distribute(q, 1, m);
      DivModUnique(x + d, q + 1, r + d - m, m);
    }
  }

  /** Two times less than one modulus apart never share a residue unless equal. */
  lemma ModDistinct(i: nat, j: nat, m: nat)
    requires i < j < i + m
    ensures i % m != j % m
  {
    AddWithin(i, j - i, m);
  }

  /** Whole multiples of the modulus do not change a residue. */
  lemma AddMultiple(x: nat, k: nat, m: nat)
    requires 0 < m
    ensures 0 <= k * m
    ensures (x + k * m) % m == x % m && (x + k * m) / m == x / m + k
  {
    DivModSum(x, m);
    var q, r := x / m, x % m;
    Distribute(q, k, m);
    DivModUnique(x + k * m, q + k, r, m);
  }

  /** A wrapped counter follows the unbounded one step by step. */
  lemma NextTick(tick: nat, now: nat, m: nat)
    requires m > 1 && tick == now % m
    ensures (tick + 1) % m == (now + 1) % m == if tick + 1 == m then 0 else tick + 1
  {
    AddWithin(now, 1, m);
    DivModUnique(tick, 0, tick, m);
    AddWithin(tick, 1, m);
  }
}
