/** Shared vocabulary: optional values, durations, and the 32-bit words Go computes with. */
module Words {

  datatype Option<+T> = None | Some(value: T) {
    function GetOr(default: T): T { if Some? then value else default }
  }

  /** Times are in nanoseconds. */
  const SECOND := 1_000_000_000
  const MINUTE := 60 * SECOND

  predicate Increasing(xs: seq<nat>) { forall i, j :: 0 <= i < j < |xs| ==> xs[i] < xs[j] }

  lemma IncreasingAppend(xs: seq<nat>, x: nat)
    requires Increasing(xs) && forall y <- xs :: y < x
    ensures Increasing(xs + [x])
  {
    assert forall i :: 0 <= i < |xs| ==> xs[i] in xs;
  }

  const TWO_32: int := 0x1_0000_0000

  type uint32 = x: int | 0 <= x < 0x1_0000_0000

  /** Go's `a + b` on uint32: carries out of bit 31 are dropped. */
  function Add(a: uint32, b: uint32): uint32 {
    if a + b < TWO_32 then a + b else a + b - TWO_32
  }

  /** Go's `a - b` on uint32: a borrow wraps around. */
  function Sub(a: uint32, b: uint32): uint32 {
    if b <= a then a - b else a - b + TWO_32
  }
}
