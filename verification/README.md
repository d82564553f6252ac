# Sound Galaxy: a Dafny model of the particle update

Sound Galaxy is an audio-reactive particle field. Particles are spread across
the window: x follows a fixed layout, y is random. On each redraw, once enough
samples have played, the program takes the window of decoded audio samples just
before the current position and turns it into a spectrum; when the samples run
out, it exits. Spectrum bin i sets the diameter of
particle i and makes it fall. A particle that falls below the bottom edge wraps
back to the top. A small reactive state object (the "constrainer") holds the
window resolution and the particles. Two renderer buffers derive from them: the
resolution pair, and one ellipse descriptor per particle. When the state changes,
the constrainer rewrites the buffers that depend on what changed. A resize
rewrites both; a particle update rewrites only the ellipse buffer.

This project models that core in Dafny:

- `particles.dfy` (module `Particles`): the particle record and its constructor. The four random draws are parameters in [0, 1).
- `config.dfy` (module `Config`): `PARTICLE_COUNT` = 2048 and `SAMPLE_COUNT` = 2 * `PARTICLE_COUNT`.
- `diameter.dfy` (module `DiameterRule`): the magnitude-to-diameter rule. It scales by 0.0001. Above 0.02 it compresses by a factor of 50. Below 0.001 it multiplies by 10 and caps at 0.001.
- `wrap.dfy` (module `Wraparound`): the vertical wraparound, with its least-lift characterisation.
- `ellipses.dfy` (module `Ellipses`): the ellipse descriptor records and the `update_ellipse_buffer` listener body.
- `constrainer.dfy` (module `Constraining`): the class `Constrainer`. Its fields are `resx`, `resy`, a `particles` array and the last contents written to both buffers. It has the two listeners, the resize entry point and the per-frame update `SetParticlesWithSpectrumAndDeltatime`. Its invariant `Valid()` says that neither buffer is stale.
- `layout.dfy` (module `Layout`): the startup positions and the loop that builds the particles.
- `frame.dfy` (module `Frame`): the redraw branch on the current sample, startup, and one redraw step. The spectrum analysis is a function parameter there.

Single-precision floats are modelled as Dafny `real`. Rounding, NaN and
infinities are outside the model (see "Left out").

The layout's last particle sits at x = 0, and all positions lie in (-1, 1).
The colour draws lie in [0, 1).

## Model

| member | source | states |
|---|---|---|
| `Particles.NewParticle` | src/lib.rs:12-21 | keeps the given x, starts with diameter 0, puts y = 2u - 1 in [-1, 1) for the draw u, and takes r, g, b each from one draw in [0, 1) |
| `DiameterRule.Knee` | src/main.rs:86-94 | above 0.02 the result is 0.02 + (raw - 0.02)/50, strictly between 0.02 and raw; [0.001, 0.02] passes unchanged; below 0.001 the result is 10*raw capped at 0.001; a non-negative raw value gives a non-negative result |
| `DiameterRule.MagnitudeToDiameter` | src/main.rs:85-94 | the diameter of magnitude m is the knee rule applied to m * 0.0001: non-negative for m >= 0, compressed below the raw value above 0.02, unchanged in the band, at most 0.001 below it |
| `DiameterRule.KneeMonotone` | src/main.rs:86-94 | the knee rule never reverses the order of two raw diameters |
| `DiameterRule.KneeFixedInBand` | src/main.rs:86-94 | applying the rule again to a result in [0.001, 0.02] changes nothing |
| `DiameterRule.KneeBoundaries` | src/main.rs:86-89 | magnitudes 200 and 10, whose raw diameters are exactly 0.02 and 0.001, come out unchanged |
| `DiameterRule.DiameterExamples` | src/main.rs:85-94 | magnitudes 0, 50, 500 and 20000 give diameters 0, 0.005, 0.0206 and 0.0596 |
| `Wraparound.Wrapped` | src/main.rs:98-100 | the wrapped height is at least -1; a height already at or above -1 is unchanged; a height below -1 ends below 1 |
| `Wraparound.WrappedAddsLeastLift` | src/main.rs:98-100 | wrapping adds exactly 2k, where k is the least count of steps of 2 that brings the height to -1 or above |
| `Wraparound.LeastLift` | src/main.rs:98-100 | every height has such a least count k, so the loop ends for every finite height |
| `Ellipses.Describe` | src/main.rs:53-71 | the descriptor is a square placement (sx = sy) centred at the particle; centre (0, 0), the given resolution, aspect 1 and alpha 1; the particle's position, diameter and colour can be read back from it unchanged |
| `Ellipses.EllipseBuffer` | src/main.rs:51-72 | the buffer has exactly one descriptor per particle, and entry i describes particle i |
| `Ellipses.BuildEllipseBuffer` | src/main.rs:49-75 | the listener's push loop produces exactly `EllipseBuffer` of the particles at the given resolution |
| `Constraining.Drift` | src/main.rs:97 | the fall in one frame is non-negative for a non-negative diameter and elapsed time, and zero when either is zero |
| `Constraining.StepParticle` | src/main.rs:84-101 | one frame keeps x, r, g, b; the diameter is `MagnitudeToDiameter` of the bin's magnitude; the new y is at least -1; if y was below 1 and the drift is non-negative, it stays below 1; a drop that stays at or above -1 is not wrapped |
| `Constraining.StepLeastLift` | src/main.rs:97-100 | a frame's new height is the old height minus the drift plus 2k, for the least k that brings it to -1 or above |
| `Constraining.StepKeepsParticleInRange` | src/main.rs:85-100 | with a non-negative magnitude and elapsed time, the diameter is non-negative and a height in (-inf, 1) lands in [-1, 1) |
| `Constraining.Constrainer.constructor` | src/main.rs:37-44 | the initial state holds the given resolution and particles, and both buffers are written from them, each exactly once |
| `Constraining.Constrainer.SetResolutionBuffer` | src/main.rs:45-47 | the resolution buffer becomes [resx, resy]; one more write to it |
| `Constraining.Constrainer.UpdateEllipseBuffer` | src/main.rs:49-75 | the ellipse buffer becomes the descriptors of the current particles at the current resolution; one more write to it |
| `Constraining.Constrainer.SetResxResy` | src/main.rs:77 | a resize stores the new resolution and rewrites both buffers, each exactly once (ghost write counters), so the ellipse buffer uses the new resolution |
| `Constraining.Constrainer.SetParticlesWithSpectrumAndDeltatime` | src/main.rs:82-103 | particle i becomes `StepParticle` of its old value with spectrum bin i; the particle count does not change; every height is at least -1; with non-negative magnitudes and elapsed time, diameters are non-negative and heights below 1 stay below 1; the ellipse buffer is rewritten exactly once, and the resolution and its buffer are not written |
| `Layout.LayoutX` | src/main.rs:139-143 | x of particle i of n is (i/(n-1))*-2 for i < n/2 and that plus 2 otherwise; the first and the last particle both sit at x = 0, and the first half is at or below 0 (its range and order are `LayoutHalves` and `LayoutDecreasingWithinHalves`) |
| `Layout.LayoutHalves` | src/main.rs:138-143 | for an even count, the first half lies in (-1, 0] and the second half in [0, 1), reaching 0 only at the last index |
| `Layout.LayoutDecreasingWithinHalves` | src/main.rs:138-143 | within each half, x strictly decreases as the index grows |
| `Layout.LayoutParticles` | src/main.rs:137-145 | the startup loop yields n particles, particle i created at `LayoutX(i, n)` with the i-th draws |
| `Frame.SelectWindow` | src/main.rs:201-206 | the redraw exits exactly when the current sample is past the samples; it updates exactly when SAMPLE_COUNT < current < number of samples; the window then has SAMPLE_COUNT entries, entry k being sample current - SAMPLE_COUNT + k |
| `Frame.WindowEndsBeforeCurrentSample` | src/main.rs:205-206 | the window's last entry is the sample just before the current one |
| `Frame.Startup` | src/main.rs:137-147 | startup yields PARTICLE_COUNT particles at their layout positions, and a state whose buffers are up to date |
| `Frame.Redraw` | src/main.rs:201-214 | the redraw exits exactly when the samples are used up; without a window the particles stay as they were; with one, each particle takes one step from the spectrum of that window and the ellipse buffer is written once; the resolution buffer is never written |

## Left out

- The window event loop, resize and scale-factor events, closing and `request_redraw`. These are UI plumbing. A resize is modelled only as the call `SetResxResy`.
- GPU surface, texture, encoder, `render_all`, submission and presentation, and the surface-error branches. This is GPU I/O.
- Audio decoding, playback and the collection of samples. This is audio I/O. The samples are a parameter.
- The FFT. It is a foreign library, passed to `Frame.Redraw` as the function `analyze`. That its result has at least one bin per particle is a precondition, not a proved fact.
- The reactive-state macro's generated code is not visible. `Constrainer.constructor` and `Constrainer.SetResxResy` follow the listeners' declared dependencies: both depend on resx and resy, so both run. They are not verified against that code.
- The renderer's record conversions and its buffer writes. They are modelled as assignment of a sequence to a buffer field.
- Frame pacing (the sleep and the elapsed-time measurement) and the float-to-integer computation of the current sample. These are clock I/O. `deltatime` and `currentSample` are inputs.
- Command-line handling, and the random generator itself. Its draws are parameters of type `Unit`, which is [0, 1).
- f32 rounding, NaN and infinity. The wrap loop would never end with y = -infinity, or with a finite y so negative that adding 2.0 is lost to rounding (some |y| above 2^25, every |y| from 2^26). Reals are finite and exact here, so the model's loop always ends.
- `Constraining.Constrainer.SetParticlesWithSpectrumAndDeltatime` computes the new height in a local variable and writes the whole record back. The source updates the fields of the element in place. The results are the same.
- `Layout.LayoutHalves`: stated only for an even count. That is the case of `PARTICLE_COUNT` = 2048. For an odd count the second half starts at x = 1.
