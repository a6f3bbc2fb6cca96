/**
 * The enhanced VJ demo (0005_vj): five drawing patterns with four
 * sub-patterns each, steered by the gamepad or keyboard, with an auto-beat,
 * a particle fountain and a 32-point trail.
 */
module EnhancedVj {
  import opened Wrappers
  import opened Input
  import opened VjControls

  const Patterns: int := 5

  class EnhancedVJ {
    /** The pattern, beat, parameter and phase attributes of the app, as one record. */
    var knobs: Knobs
    var particles: seq<Particle>
    var trails: seq<(real, real)>

    /** What every frame keeps: the cyclers and clamps in range, a bounded trail, live particles. */
    ghost predicate Valid()
      reads this
    {
      KnobsInRange(knobs, Patterns) && ParamsInRange(knobs.params) &&
      |trails| <= TrailLength && LivesInRange(particles, 1, ParticleLife - 1)
    }

    constructor ()
      ensures Valid()
      ensures knobs == InitialKnobs && particles == [] && trails == []
    {
      knobs := InitialKnobs;
      particles, trails := [], [];
    }

    /**
     * One `update`.  `spawn` stands for the particle draws and `trailPoint`
     * for the trail point that `pyxel.frame_count` and the speed place on
     * a circle.  `music` is the music `pyxel.playm` restarts when B/K
     * switches the pattern; quitting and the sound effects are not modelled.
     */
    method Update(c: Controls, spawn: SpawnDraw, trailPoint: (real, real)) returns (music: Option<int>)
      requires Valid()
      modifies this
      ensures Valid()
      ensures knobs == Step(old(knobs), c, Patterns)
      ensures particles == Survivors(Spawned(old(particles), knobs.params.intensity, old(knobs.colorPhase), spawn))
      ensures trails == PushTrail(old(trails), trailPoint)
      ensures music == if IsButtonPressed(c.b) then Some(knobs.patternType) else None
    {
      var k0 := knobs;
      var k := Step(k0, c, Patterns);
      StepKeepsRanges(k0, c, Patterns);
      StepParamsInRange(k0, c, Patterns);
      ParticleStepBounds(particles, k.params.intensity, k0.colorPhase, spawn);
      PushTrailBounded(trails, trailPoint);
      knobs := k;
      particles := UpdateParticles(particles, k.params.intensity, k0.colorPhase, spawn);
      trails := PushTrail(trails, trailPoint);
      music := if IsButtonPressed(c.b) then Some(k.patternType) else None;
    }
  }
}
