// The two compile-time sizes of the visualiser.

module Config {

  /** Number of particles, and the least number of spectrum bins a frame needs. */
  const PARTICLE_COUNT: nat := 2048

  /** Length of the sample window handed to the spectrum analysis each frame. */
  const SAMPLE_COUNT: nat := PARTICLE_COUNT * 2
}
