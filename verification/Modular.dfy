/** Positions on a cycle. Capacities are powers of two in the code, which masks; here any positive
    capacity will do. */
module Modular {

  /** Where position `x` of an endless stream lands on a cycle of length `c`. */
  function Ix(x: nat, c: nat): (r: nat)
    requires c >= 1
    ensures r < c && r <= x
  {
    if x < c then x else Ix(x - c, c)
  }

  /** It is the remainder, which a mask computes when the cycle's length is a power of two: `x` is
      whole laps plus it. */
  lemma {:induction false} IxIsRemainder(x: nat, c: nat)
    requires c >= 1
    ensures exists laps: nat :: x == laps * c + Ix(x, c) && Ix(x, c) < c
  {
    if x < c {
      assert x == 0 * c + Ix(x, c);
    } else {
      IxIsRemainder(x - c, c);
      var q: nat :| x - c == q * c + Ix(x - c, c);
      OneLap(q, c);
      assert x == (q + 1) * c + Ix(x, c);
    }
  }

  lemma OneLap(q: nat, c: nat)
    ensures (q + 1) * c == q * c + c
  {
  }

  /** Two positions that land together are equal or a whole lap apart. */
  lemma {:induction false} SameRemainder(m: nat, n: nat, c: nat)
    requires c >= 1 && Ix(m, c) == Ix(n, c) && m > n
    ensures m >= n + c
    decreases n
  {
    if n >= c { SameRemainder(m - c, n - c, c); }
  }

  /** A step that stays within the lap moves the landing place by as much. */
  lemma {:induction false} WithinLap(x: nat, k: nat, c: nat)
    requires c >= 1 && Ix(x, c) + k < c
    ensures Ix(x + k, c) == Ix(x, c) + k
  {
    if x >= c { WithinLap(x - c, k, c); }
  }

  /** The next lap begins at the start of the cycle. */
  lemma {:induction false} NextLap(x: nat, c: nat)
    requires c >= 1
    ensures Ix(x - Ix(x, c) + c, c) == 0
  {
    if x >= c { NextLap(x - c, c); }
  }

  const CACHE_LINE := 64

  /** On a cache-line boundary. */
  predicate Aligned(x: nat) { Ix(x, CACHE_LINE) == 0 }

  lemma {:induction false} AlignedSum(a: nat, b: nat)
    requires Aligned(a) && Aligned(b)
    ensures Aligned(a + b)
  {
    if a >= CACHE_LINE { AlignedSum(a - CACHE_LINE, b); }
  }

  lemma {:induction false} AlignedDifference(a: nat, b: nat)
    requires Aligned(a) && Aligned(b) && b <= a
    ensures Aligned(a - b)
    decreases b
  {
    if b >= CACHE_LINE { AlignedDifference(a - CACHE_LINE, b - CACHE_LINE); }
  }

  /** On a cycle of whole cache lines, alignment is kept. */
  lemma {:induction false} AlignedIx(x: nat, c: nat)
    requires c >= 1 && Aligned(c) && Aligned(x)
    ensures Aligned(Ix(x, c))
  {
    if x >= c {
      AlignedDifference(x, c);
      AlignedIx(x - c, c);
    }
  }
}
