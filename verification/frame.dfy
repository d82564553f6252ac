// The model-side parts of the frame driver: building the initial state, and,
// on each redraw, choosing the sample window that feeds the particle update.
// The spectrum analysis of that window is a parameter of the model.

module Frame {
  import opened Config
  import opened Particles
  import opened Layout
  import opened Constraining

  /** What a redraw does with the audio: stop, leave the particles as they are, or update from a window. */
  datatype FrameAction = Exit | Skip | Update(window: seq<real>)

  /** The branch on the current sample position. */
  function SelectWindow(samples: seq<real>, currentSample: nat): (action: FrameAction)
    ensures action.Exit? <==> currentSample >= |samples|
    ensures action.Update? <==> SAMPLE_COUNT < currentSample < |samples|
    ensures action.Update? ==> |action.window| == SAMPLE_COUNT
    ensures action.Update? ==> forall k :: 0 <= k < SAMPLE_COUNT ==>
      action.window[k] == samples[currentSample - SAMPLE_COUNT + k]
  {
    if currentSample >= |samples| then Exit
    else if currentSample > SAMPLE_COUNT then Update(samples[currentSample - SAMPLE_COUNT..currentSample])
    else Skip
  }

  /** The update window ends with the sample just before the current one. */
  lemma WindowEndsBeforeCurrentSample(samples: seq<real>, currentSample: nat)
    requires SelectWindow(samples, currentSample).Update?
    ensures SelectWindow(samples, currentSample).window[SAMPLE_COUNT - 1] == samples[currentSample - 1]
  {
  }

  /** Startup: PARTICLE_COUNT particles laid out in order, then the state and both buffers. */
  method Startup(resx: real, resy: real, draws: seq<Draws>) returns (c: Constrainer)
    requires |draws| == PARTICLE_COUNT
    ensures fresh(c) && fresh(c.particles) && c.Valid()
    ensures c.resx == resx && c.resy == resy
    ensures c.particles.Length == PARTICLE_COUNT
    ensures forall i :: 0 <= i < PARTICLE_COUNT ==>
      c.particles[i] == NewParticle(LayoutX(i, PARTICLE_COUNT), draws[i])
  {
    var particles := LayoutParticles(PARTICLE_COUNT, draws);
    c := new Constrainer(resx, resy, particles);
  }

  /**
   * One redraw: exit when the samples are used up, otherwise update the particles
   * from the spectrum of the current window when there is one.
   */
  method Redraw(c: Constrainer, samples: seq<real>, currentSample: nat, deltatime: real,
                analyze: seq<real> -> seq<Bin>) returns (exit: bool)
    requires c.Valid()
    requires SelectWindow(samples, currentSample).Update? ==>
      |analyze(SelectWindow(samples, currentSample).window)| >= c.particles.Length
    modifies c`ellipseBuffer, c`ellipseWrites, c.particles
    ensures c.Valid()
    ensures c.resolutionWrites == old(c.resolutionWrites)
    ensures c.ellipseWrites == old(c.ellipseWrites) + (if SelectWindow(samples, currentSample).Update? then 1 else 0)
    ensures exit <==> currentSample >= |samples|
    ensures !SelectWindow(samples, currentSample).Update? ==> c.particles[..] == old(c.particles[..])
    ensures SelectWindow(samples, currentSample).Update? ==>
      var spectrum := analyze(SelectWindow(samples, currentSample).window);
      forall i :: 0 <= i < c.particles.Length ==>
        c.particles[i] == StepParticle(old(c.particles[i]), spectrum[i].magnitude, deltatime)
  {
    exit := false;
    if currentSample >= |samples| {
      exit := true;
    } else if currentSample > SAMPLE_COUNT {
      var window := samples[currentSample - SAMPLE_COUNT..currentSample];
      var spectrum := analyze(window);
      c.SetParticlesWithSpectrumAndDeltatime(spectrum, deltatime);
    }
  }
}
