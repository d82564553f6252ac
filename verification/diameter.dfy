// How a spectrum magnitude becomes a particle diameter: a linear scale
// followed by two knees, a soft compression above 0.02 and an amplify-and-cap
// below 0.001.

module DiameterRule {

  /** Raw diameter per unit of magnitude. */
  const SCALE: real := 0.0001
  /** Above this the diameter is compressed by a factor of 50. */
  const UPPER_KNEE: real := 0.02
  /** Below this the diameter is multiplied by 10 and then capped here. */
  const LOWER_KNEE: real := 0.001

  /** The two knees applied, in order, to a raw diameter. */
  function Knee(raw: real): (d: real)
    ensures raw > UPPER_KNEE ==> UPPER_KNEE < d < raw
    ensures raw > UPPER_KNEE ==> d - UPPER_KNEE == (raw - UPPER_KNEE) / 50.0
    ensures LOWER_KNEE <= raw <= UPPER_KNEE ==> d == raw
    ensures raw < LOWER_KNEE ==> d <= LOWER_KNEE
    ensures raw < LOWER_KNEE && raw * 10.0 <= LOWER_KNEE ==> d == raw * 10.0
    ensures raw < LOWER_KNEE && raw * 10.0 > LOWER_KNEE ==> d == LOWER_KNEE
    ensures raw >= 0.0 ==> d >= 0.0
  {
    var compressed := if raw > UPPER_KNEE then UPPER_KNEE + (raw - UPPER_KNEE) / 50.0 else raw;
    if compressed < LOWER_KNEE then
      var amplified := compressed * 10.0;
      if amplified > LOWER_KNEE then LOWER_KNEE else amplified
    else
      compressed
  }

  /** The diameter a particle takes for spectrum magnitude `m`. */
  function MagnitudeToDiameter(m: real): (d: real)
    ensures m >= 0.0 ==> d >= 0.0
    ensures m * SCALE > UPPER_KNEE ==> UPPER_KNEE < d < m * SCALE
    ensures LOWER_KNEE <= m * SCALE <= UPPER_KNEE ==> d == m * SCALE
    ensures m * SCALE < LOWER_KNEE ==> d <= LOWER_KNEE
  {
    Knee(m * SCALE)
  }

  /** The knees keep the order of raw diameters. */
  lemma KneeMonotone(a: real, b: real)
    requires a <= b
    ensures Knee(a) <= Knee(b)
  {
  }

  /** Every value in the linear band is a fixed point, so re-applying the rule there changes nothing. */
  lemma KneeFixedInBand(raw: real)
    requires LOWER_KNEE <= Knee(raw) <= UPPER_KNEE
    ensures Knee(Knee(raw)) == Knee(raw)
  {
  }

  /** The threshold values themselves come out unchanged. */
  lemma KneeBoundaries()
    ensures MagnitudeToDiameter(200.0) == UPPER_KNEE
    ensures MagnitudeToDiameter(10.0) == LOWER_KNEE
  {
  }

  /** Magnitudes 0, 50, 500 and 20000 give diameters 0, 0.005, 0.0206 and 0.0596. */
  lemma DiameterExamples()
    ensures MagnitudeToDiameter(0.0) == 0.0
    ensures MagnitudeToDiameter(50.0) == 0.005
    ensures MagnitudeToDiameter(500.0) == 0.0206
    ensures MagnitudeToDiameter(20000.0) == 0.0596
  {
  }
}
