// The particle record of the visualiser and its constructor.
// Single-precision floats are modelled as `real`: rounding, NaN and
// infinities are outside this model.

module Particles {

  /** One value of a uniform random float draw, which lies in [0, 1). */
  type Unit = u: real | 0.0 <= u < 1.0 witness 0.0

  /** The four random draws `Particle::new` consumes, in the order it takes them. */
  datatype Draws = Draws(y: Unit, r: Unit, g: Unit, b: Unit)

  /** A point of the field: position, colour and its audio-driven size. */
  datatype Particle = Particle(x: real, y: real, r: real, g: real, b: real, diameter: real)

  /** A particle at horizontal position `x`, with a random height and colour and no size yet. */
  function NewParticle(x: real, draws: Draws): (p: Particle)
    ensures p.x == x && p.diameter == 0.0
    ensures -1.0 <= p.y < 1.0 && (p.y + 1.0) / 2.0 == draws.y
    ensures p.r == draws.r && p.g == draws.g && p.b == draws.b
    ensures 0.0 <= p.r < 1.0 && 0.0 <= p.g < 1.0 && 0.0 <= p.b < 1.0
  {
    Particle(x, draws.y * 2.0 - 1.0, draws.r, draws.g, draws.b, 0.0)
  }
}
