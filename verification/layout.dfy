// The startup layout: particle i of n gets a horizontal position from a
// two-ramp rule, and the particles are built in index order.

module Layout {
  import opened Particles

  /**
   * Horizontal position of particle `i` of `n`: a ramp down from 0 over the first
   * half, and the same ramp lifted by 2 over the second; both ends sit at 0.
   */
  function LayoutX(i: nat, n: nat): (x: real)
    requires 2 <= n && i < n
    ensures i == 0 ==> x == 0.0
    ensures i == n - 1 ==> x == 0.0
    ensures i < n / 2 ==> x <= 0.0
  {
    var t := (i as real) / (n as real - 1.0);
    if i < n / 2 then t * -2.0 else t * -2.0 + 2.0
  }

  /** Dividing by a positive number keeps strict order. */
  lemma DivideStrictlyMonotone(a: real, b: real, d: real)
    requires a < b && d > 0.0
    ensures a / d < b / d
  {
    assert (b / d - a / d) * d == b - a;
  }

  /** Where the ratio a / d lies, relative to 1/2 and 1, for 0 <= a <= d. */
  lemma RatioBounds(a: real, d: real)
    requires 0.0 <= a <= d && d > 0.0
    ensures 0.0 <= a / d <= 1.0
    ensures 2.0 * a < d ==> a / d < 0.5
    ensures 2.0 * a > d ==> a / d > 0.5
    ensures a < d ==> a / d < 1.0
  {
    var q := a / d;
    assert q * d == a;
    assert (d / 2.0) / d == 0.5;
    assert d / d == 1.0;
    if a > 0.0 {
      DivideStrictlyMonotone(0.0, a, d);
    }
    if 2.0 * a < d {
      DivideStrictlyMonotone(a, d / 2.0, d);
    }
    if 2.0 * a > d {
      DivideStrictlyMonotone(d / 2.0, a, d);
    }
    if a < d {
      DivideStrictlyMonotone(a, d, d);
    }
  }

  /**
   * For an even count, the first half lies in (-1, 0] and the second in [0, 1),
   * reaching 0 only at the last index.
   */
  lemma LayoutHalves(i: nat, n: nat)
    requires 2 <= n && n % 2 == 0 && i < n
    ensures i < n / 2 ==> -1.0 < LayoutX(i, n) <= 0.0
    ensures n / 2 <= i ==> 0.0 <= LayoutX(i, n) < 1.0
    ensures n / 2 <= i < n - 1 ==> 0.0 < LayoutX(i, n)
  {
    RatioBounds(i as real, n as real - 1.0);
  }

  /** Within each half, the position strictly decreases as the index grows. */
  lemma LayoutDecreasingWithinHalves(i: nat, j: nat, n: nat)
    requires 2 <= n && i < j < n
    requires j < n / 2 || n / 2 <= i
    ensures LayoutX(j, n) < LayoutX(i, n)
  {
    DivideStrictlyMonotone(i as real, j as real, n as real - 1.0);
  }

  /** The startup loop: particle i is created at LayoutX(i, n) with the i-th draws. */
  method LayoutParticles(n: nat, draws: seq<Draws>) returns (particles: seq<Particle>)
    requires 2 <= n && |draws| == n
    ensures |particles| == n
    ensures forall i :: 0 <= i < n ==> particles[i] == NewParticle(LayoutX(i, n), draws[i])
  {
    particles := [];
    for i := 0 to n
      invariant |particles| == i
      invariant forall k :: 0 <= k < i ==> particles[k] == NewParticle(LayoutX(k, n), draws[k])
    {
      var x := if i < n / 2 then (i as real) / (n as real - 1.0) * -2.0
               else (i as real) / (n as real - 1.0) * -2.0 + 2.0;
      particles := particles + [NewParticle(x, draws[i])];
    }
  }
}
