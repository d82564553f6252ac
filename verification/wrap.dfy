// The vertical wraparound: a particle that drifted below -1 is lifted by
// whole steps of 2 until it is back at or above -1.

module Wraparound {

  /** Height after lifting `y` by 2 for as long as it is below -1. */
  function Wrapped(y: real): (r: real)
    ensures r >= -1.0
    ensures y >= -1.0 ==> r == y
    ensures y < -1.0 ==> r < 1.0
    decreases if y < -1.0 then (-1.0 - y).Floor + 1 else 0
  {
    if y < -1.0 then Wrapped(y + 2.0) else y
  }

  /**
   * Wrapping adds exactly 2k, for the least k that brings `y` to -1 or above
   * (the two requires pin that k down).
   */
  lemma {:induction false} WrappedAddsLeastLift(y: real, k: nat)
    requires y + 2.0 * (k as real) >= -1.0
    requires k == 0 || y + 2.0 * ((k - 1) as real) < -1.0
    ensures Wrapped(y) == y + 2.0 * (k as real)
    decreases k
  {
    if k > 0 {
      WrappedAddsLeastLift(y + 2.0, k - 1);
    }
  }

  /** For every height there is a least lift, so the wrap above covers every input. */
  lemma LeastLift(y: real) returns (k: nat)
    ensures y + 2.0 * (k as real) >= -1.0
    ensures k == 0 || y + 2.0 * ((k - 1) as real) < -1.0
    decreases if y < -1.0 then (-1.0 - y).Floor + 1 else 0
  {
    if y < -1.0 {
      var j := LeastLift(y + 2.0);
      k := j + 1;
    } else {
      k := 0;
    }
  }
}
