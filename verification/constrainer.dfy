// The reactive state of the visualiser (window resolution and particles) with
// the two buffers derived from it, and the per-frame particle update.
// The renderer's buffers are modelled as the last sequence written to them.

module Constraining {
  import opened Particles
  import opened DiameterRule
  import opened Wraparound
  import opened Ellipses

  /** A spectrum bin: a frequency and the magnitude measured there. */
  datatype Bin = Bin(frequency: real, magnitude: real)

  /** How far a particle of the given diameter falls in `deltatime` seconds. */
  function Drift(diameter: real, deltatime: real): (fall: real)
    ensures diameter >= 0.0 && deltatime >= 0.0 ==> fall >= 0.0
    ensures diameter == 0.0 || deltatime == 0.0 ==> fall == 0.0
  {
    diameter * deltatime * 20.0
  }

  /** Particle `p` after one frame at spectrum magnitude `magnitude` over `deltatime` seconds. */
  function StepParticle(p: Particle, magnitude: real, deltatime: real): (q: Particle)
    ensures q.x == p.x && q.r == p.r && q.g == p.g && q.b == p.b
    ensures q.diameter == MagnitudeToDiameter(magnitude)
    ensures q.y >= -1.0
    ensures p.y < 1.0 && Drift(q.diameter, deltatime) >= 0.0 ==> q.y < 1.0
    ensures p.y - Drift(q.diameter, deltatime) >= -1.0 ==> q.y == p.y - Drift(q.diameter, deltatime)
  {
    var diameter := MagnitudeToDiameter(magnitude);
    p.(diameter := diameter, y := Wrapped(p.y - Drift(diameter, deltatime)))
  }

  /**
   * For a non-negative magnitude and elapsed time, a frame gives a non-negative size
   * and keeps a particle whose height is below 1 within [-1, 1).
   */
  lemma StepKeepsParticleInRange(p: Particle, magnitude: real, deltatime: real)
    requires magnitude >= 0.0 && deltatime >= 0.0
    ensures StepParticle(p, magnitude, deltatime).diameter >= 0.0
    ensures p.y < 1.0 ==> -1.0 <= StepParticle(p, magnitude, deltatime).y < 1.0
  {
  }

  /**
   * A frame lowers the height by the drift and then adds exactly 2k, for the least k
   * that brings it back to -1 or above.
   */
  lemma StepLeastLift(p: Particle, magnitude: real, deltatime: real, k: nat)
    requires p.y - Drift(MagnitudeToDiameter(magnitude), deltatime) + 2.0 * (k as real) >= -1.0
    requires k == 0 || p.y - Drift(MagnitudeToDiameter(magnitude), deltatime) + 2.0 * ((k - 1) as real) < -1.0
    ensures StepParticle(p, magnitude, deltatime).y == p.y - Drift(MagnitudeToDiameter(magnitude), deltatime) + 2.0 * (k as real)
  {
    WrappedAddsLeastLift(p.y - Drift(MagnitudeToDiameter(magnitude), deltatime), k);
  }

  class Constrainer {
    var resx: real
    var resy: real
    var particles: array<Particle>
    /** Last contents written to the renderer's resolution buffer. */
    var resolutionBuffer: seq<real>
    /** Last contents written to the ellipse renderer's buffer. */
    var ellipseBuffer: seq<EllipseDescriptor>
    /** How many times each listener has written its buffer. */
    ghost var resolutionWrites: nat
    ghost var ellipseWrites: nat

    /** Neither derived buffer is stale with respect to the resolution and the particles. */
    ghost predicate Valid()
      reads this, particles
    {
      resolutionBuffer == [resx, resy] &&
      ellipseBuffer == EllipseBuffer(resx, resy, particles[..])
    }

    /** Sets up the state and runs every listener once. */
    constructor (initialResx: real, initialResy: real, initialParticles: seq<Particle>)
      ensures Valid() && fresh(particles)
      ensures resolutionWrites == 1 && ellipseWrites == 1
      ensures resx == initialResx && resy == initialResy
      ensures particles[..] == initialParticles
    {
      resx, resy := initialResx, initialResy;
      particles := new Particle[|initialParticles|](i requires 0 <= i < |initialParticles| => initialParticles[i]);
      resolutionWrites, ellipseWrites := 0, 0;
      new;
      SetResolutionBuffer();
      UpdateEllipseBuffer();
    }

    /** The `set_resolution_buffer` listener: writes the pair (resx, resy). */
    method SetResolutionBuffer()
      modifies this`resolutionBuffer, this`resolutionWrites
      ensures resolutionBuffer == [resx, resy]
      ensures resolutionWrites == old(resolutionWrites) + 1
    {
      resolutionBuffer := [resx, resy];
      resolutionWrites := resolutionWrites + 1;
    }

    /** The `update_ellipse_buffer` listener: rewrites the ellipse buffer from the particles. */
    method UpdateEllipseBuffer()
      modifies this`ellipseBuffer, this`ellipseWrites
      ensures ellipseBuffer == EllipseBuffer(resx, resy, particles[..])
      ensures ellipseWrites == old(ellipseWrites) + 1
    {
      ellipseBuffer := BuildEllipseBuffer(resx, resy, particles[..]);
      ellipseWrites := ellipseWrites + 1;
    }

    /** A resize: both listeners depend on the resolution, so both run, each once. */
    method SetResxResy(newResx: real, newResy: real)
      requires Valid()
      modifies this`resx, this`resy, this`resolutionBuffer, this`ellipseBuffer
      modifies this`resolutionWrites, this`ellipseWrites
      ensures Valid()
      ensures resolutionWrites == old(resolutionWrites) + 1 && ellipseWrites == old(ellipseWrites) + 1
      ensures resx == newResx && resy == newResy
      ensures resolutionBuffer == [newResx, newResy]
      ensures ellipseBuffer == EllipseBuffer(newResx, newResy, particles[..])
    {
      resx, resy := newResx, newResy;
      SetResolutionBuffer();
      UpdateEllipseBuffer();
    }

    /**
     * One frame: particle i takes its diameter from spectrum bin i, drifts down in
     * proportion to it and wraps back above -1; then the ellipse buffer is rebuilt.
     */
    method SetParticlesWithSpectrumAndDeltatime(spectrum: seq<Bin>, deltatime: real)
      requires Valid()
      requires |spectrum| >= particles.Length
      modifies this`ellipseBuffer, this`ellipseWrites, particles
      ensures Valid()
      ensures ellipseWrites == old(ellipseWrites) + 1 && resolutionWrites == old(resolutionWrites)
      ensures forall i :: 0 <= i < particles.Length ==>
        particles[i] == StepParticle(old(particles[i]), spectrum[i].magnitude, deltatime)
      ensures forall i :: 0 <= i < particles.Length ==> particles[i].y >= -1.0
      ensures deltatime >= 0.0 && (forall i :: 0 <= i < particles.Length ==> spectrum[i].magnitude >= 0.0) ==>
        forall i :: 0 <= i < particles.Length ==> particles[i].diameter >= 0.0
      ensures deltatime >= 0.0 && (forall i :: 0 <= i < particles.Length ==> spectrum[i].magnitude >= 0.0) ==>
        forall i :: 0 <= i < particles.Length && old(particles[i].y) < 1.0 ==> particles[i].y < 1.0
    {
      var i := 0;
      while i < particles.Length
        modifies particles
        invariant 0 <= i <= particles.Length
        invariant forall k :: 0 <= k < i ==>
          particles[k] == StepParticle(old(particles[k]), spectrum[k].magnitude, deltatime)
        invariant forall k :: i <= k < particles.Length ==> particles[k] == old(particles[k])
      {
        var particle := particles[i];
        var diameter := MagnitudeToDiameter(spectrum[i].magnitude);
        var y := particle.y - Drift(diameter, deltatime);
        ghost var drifted := y;
        while y < -1.0
          invariant Wrapped(y) == Wrapped(drifted)
          decreases (-1.0 - y).Floor + 1
        {
          y := y + 2.0;
        }
        assert particle.(diameter := diameter, y := y) == StepParticle(particle, spectrum[i].magnitude, deltatime);
        particles[i] := particle.(diameter := diameter, y := y);
        i := i + 1;
      }
      UpdateEllipseBuffer();
      forall k | 0 <= k < particles.Length && deltatime >= 0.0 && spectrum[k].magnitude >= 0.0
        ensures particles[k].diameter >= 0.0
        ensures old(particles[k].y) < 1.0 ==> particles[k].y < 1.0
      {
        StepKeepsParticleInRange(old(particles[k]), spectrum[k].magnitude, deltatime);
      }
    }
  }
}
