/** Notions shared by all parts of the model. */
module Basics {

  datatype Option<+T> = None | Some(value: T)

  function Max(a: nat, b: nat): nat { if a < b then b else a }
  function Min(a: nat, b: nat): nat { if a < b then a else b }

  /** The sequences `a..b`. */
  function Range(a: nat, b: nat): (r: set<nat>)
    ensures forall n :: n in r <==> a <= n < b
    decreases b - a
  {
    if a < b then {a} + Range(a + 1, b) else {}
  }

  /** The oldest sequence still in a ring of `cap` slots whose newest announced one is `writeSeq`:
      the only one that is less than a ring behind and follows one that is not, or the first. */
  function OldestRetained(writeSeq: nat, cap: nat): (o: nat)
    requires cap >= 1
    ensures 1 <= o && writeSeq < o + cap && (o == 1 || writeSeq == o - 1 + cap)
  {
    if writeSeq >= cap then writeSeq - cap + 1 else 1
  }
}
