/**
 * The extended VJ demo (0006_vj): the controller of the enhanced demo with
 * eight patterns, plus a toy genetic algorithm that every 300 frames replaces
 * the speed, intensity and complexity parameters, a Gray-Scott
 * reaction-diffusion pair of grids, a Game of Life grid and a music timer.
 */
module EnhancedVjSims {
  import opened Wrappers
  import opened Input
  import opened Numeric
  import opened VjControls
  import opened Genetic
  import ReactionDiffusion
  import Life

  const Patterns: int := 8

  /** `update_sound` restarts the music every 20 frames. */
  const SoundPeriod: int := 20

  /** The music variants; the pattern selects one by `pattern_type % 4`. */
  const Musics: int := 4

  /** The genes of an individual, as the three parameters they replace. */
  function Genes(ind: Individual): Params {
    Params(ind.speed, ind.intensity, ind.complexity)
  }

  /** The reaction-diffusion grids `__init__` builds: U all 1.0 and V all 0.0, except the centre cell (16, 16). */
  function InitialField(background: real, centre: real): (f: ReactionDiffusion.Field)
    ensures ReactionDiffusion.IsField(f)
    ensures forall i, j :: 0 <= i < ReactionDiffusion.Size && 0 <= j < ReactionDiffusion.Size ==>
      f[i][j] == if i == 16 && j == 16 then centre else background
  {
    seq(ReactionDiffusion.Size, i =>
      seq(ReactionDiffusion.Size, j => if i == 16 && j == 16 then centre else background))
  }

  /** An initial population: ten individuals with genes drawn from the parameter ranges. */
  predicate IsInitialPopulation(pop: seq<Individual>) {
    |pop| == PopulationSize &&
    forall i :: 0 <= i < |pop| ==> ParamsInRange(Genes(pop[i]))
  }

  /** The random draws of one generation: the two parents' indices and the three mutation factors. */
  datatype BreedDraw = BreedDraw(parent1: nat, parent2: nat, ms: real, mi: real, mc: real)

  predicate BreedDrawFits(d: BreedDraw) {
    d.parent1 < PopulationSize && d.parent2 < PopulationSize
  }

  /** The music timer after a frame, and the music it restarts when it reaches 20. */
  function NextSoundTimer(timer: int): int {
    if timer + 1 >= SoundPeriod then 0 else timer + 1
  }

  /** The music restarted every 20th frame is the current pattern's variant, in 0..3. */
  lemma SoundTimerCycles(timer: int, pattern: int)
    requires 0 <= timer < SoundPeriod && 0 <= pattern
    ensures 0 <= NextSoundTimer(timer) < SoundPeriod
    ensures NextSoundTimer(timer) == 0 <==> timer == SoundPeriod - 1
    ensures 0 <= pattern % Musics < Musics
  {
  }

  class EnhancedVJ {
    /** The pattern, beat, parameter and phase attributes of the app, as one record. */
    var knobs: Knobs
    var particles: seq<Particle>
    var trails: seq<(real, real)>
    var soundTimer: int
    var gaPopulation: seq<Individual>
    var gaTimer: int
    var rdU: ReactionDiffusion.Field
    var rdV: ReactionDiffusion.Field
    var lifeGrid: Life.Grid

    /**
     * What every frame keeps.  The parameters are not among them: a
     * generation copies genes that breeding may have pushed out of range.
     */
    ghost predicate Valid()
      reads this
    {
      KnobsInRange(knobs, Patterns) &&
      |trails| <= TrailLength && LivesInRange(particles, 1, ParticleLife - 1) &&
      |gaPopulation| == PopulationSize && 0 <= gaTimer < GenerationPeriod &&
      ReactionDiffusion.IsField(rdU) && ReactionDiffusion.IsField(rdV) &&
      Life.IsGrid(lifeGrid) && 0 <= soundTimer < SoundPeriod
    }

    /** `__init__`, with the random initial population and life grid as parameters. */
    constructor (population: seq<Individual>, grid: Life.Grid)
      requires IsInitialPopulation(population) && Life.IsBinary(grid)
      ensures Valid()
      ensures knobs == InitialKnobs && particles == [] && trails == []
      ensures gaPopulation == population && gaTimer == 0 && soundTimer == 0 && lifeGrid == grid
      ensures rdU == InitialField(1.0, 0.5) && rdV == InitialField(0.0, 0.25)
    {
      knobs := InitialKnobs;
      particles, trails := [], [];
      soundTimer := 0;
      gaPopulation, gaTimer := population, 0;
      rdU, rdV := InitialField(1.0, 0.5), InitialField(0.0, 0.25);
      lifeGrid := grid;
    }

    /** The controller lines of `update`, which the enhanced demo shares line for line. */
    method UpdateController(c: Controls, spawn: SpawnDraw, trailPoint: (real, real))
      requires KnobsInRange(knobs, Patterns)
      requires |trails| <= TrailLength && LivesInRange(particles, 1, ParticleLife - 1)
      modifies this`knobs, this`particles, this`trails
      ensures knobs == Step(old(knobs), c, Patterns) && KnobsInRange(knobs, Patterns)
      ensures particles == Survivors(Spawned(old(particles), knobs.params.intensity, old(knobs.colorPhase), spawn))
      ensures trails == PushTrail(old(trails), trailPoint)
      ensures |trails| <= TrailLength && LivesInRange(particles, 1, ParticleLife - 1)
    {
      var k0 := knobs;
      var k := Step(k0, c, Patterns);
      StepKeepsRanges(k0, c, Patterns);
      ParticleStepBounds(particles, k.params.intensity, k0.colorPhase, spawn);
      PushTrailBounded(trails, trailPoint);
      knobs := k;
      particles := UpdateParticles(particles, k.params.intensity, k0.colorPhase, spawn);
      trails := PushTrail(trails, trailPoint);
    }

    /**
     * `update_genetic_algorithm`.  On the call where the timer reaches 300
     * the parameters take the genes of the first fittest individual of the
     * population as it stood, the child of the two drawn parents enters the
     * window, the oldest individual leaves it and the timer restarts.
     */
    method UpdateGeneticAlgorithm(d: BreedDraw)
      requires |gaPopulation| == PopulationSize && BreedDrawFits(d)
      modifies this`gaTimer, this`gaPopulation, this`knobs
      ensures gaTimer == NextTimer(old(gaTimer))
      ensures IsGeneration(old(gaTimer)) ==>
        IsFirstFittest(old(gaPopulation), FirstFittest(old(gaPopulation))) &&
        knobs == old(knobs).(params := Genes(old(gaPopulation)[FirstFittest(old(gaPopulation))])) &&
        gaPopulation == NextPopulation(old(gaPopulation),
          Breed(old(gaPopulation)[d.parent1], old(gaPopulation)[d.parent2], d.ms, d.mi, d.mc))
      ensures !IsGeneration(old(gaTimer)) ==> knobs == old(knobs) && gaPopulation == old(gaPopulation)
      ensures |gaPopulation| == PopulationSize
    {
      var timer, pop := gaTimer + 1, gaPopulation;
      if timer >= GenerationPeriod {
        var best := SelectBest(pop);
        FirstFittestUnique(pop, best);
        knobs := knobs.(params := Genes(pop[best]));
        var child := Breed(pop[d.parent1], pop[d.parent2], d.ms, d.mi, d.mc);
        NextPopulationSlides(pop, child);
        pop := pop + [child];
        if |pop| > PopulationSize {
          pop := pop[1..];
        }
        timer := 0;
      }
      gaTimer, gaPopulation := timer, pop;
    }

    /** `update_reaction_diffusion`: both grids advance one Gray-Scott step; the border stays put. */
    method UpdateReactionDiffusion()
      requires ReactionDiffusion.IsField(rdU) && ReactionDiffusion.IsField(rdV)
      modifies this`rdU, this`rdV
      ensures rdU == ReactionDiffusion.StepU(old(rdU), old(rdV)) && rdV == ReactionDiffusion.StepV(old(rdU), old(rdV))
      ensures ReactionDiffusion.IsField(rdU) && ReactionDiffusion.IsField(rdV)
    {
      ReactionDiffusion.BorderUnchanged(rdU, rdV, 0, 0);
      rdU, rdV := ReactionDiffusion.Step(rdU, rdV);
    }

    /** `update_game_of_life`: the grid advances one generation and holds only zeros and ones. */
    method UpdateGameOfLife()
      requires Life.IsGrid(lifeGrid)
      modifies this`lifeGrid
      ensures lifeGrid == Life.LifeStep(old(lifeGrid)) && Life.IsBinary(lifeGrid)
    {
      Life.LifeStepIsBinary(lifeGrid);
      lifeGrid := Life.Step(lifeGrid);
    }

    /** `update_sound`: returns the music variant restarted this frame, if any. */
    method UpdateSound() returns (music: Option<int>)
      requires 0 <= knobs.patternType && 0 <= soundTimer
      modifies this`soundTimer
      ensures soundTimer == NextSoundTimer(old(soundTimer))
      ensures music == if soundTimer == 0 then Some(knobs.patternType % Musics) else None
    {
      soundTimer := soundTimer + 1;
      music := None;
      if soundTimer >= SoundPeriod {
        music := Some(knobs.patternType % Musics);
        soundTimer := 0;
      }
    }

    /**
     * One `update`.  The random draws are parameters: `spawn` for the
     * particle, `trailPoint` for the trail point and `breed` for a
     * generation.  `switched` is the music variant `pyxel.playm` restarts
     * when B/K switches the pattern, `music` the one `update_sound` restarts.
     * The Boids step, quitting and the sound effects are not modelled.
     */
    method Update(c: Controls, spawn: SpawnDraw, trailPoint: (real, real), breed: BreedDraw)
      returns (switched: Option<int>, music: Option<int>)
      requires Valid() && BreedDrawFits(breed)
      modifies this
      ensures Valid()
      ensures var k := Step(old(knobs), c, Patterns);
        knobs == if IsGeneration(old(gaTimer))
          then k.(params := Genes(old(gaPopulation)[FirstFittest(old(gaPopulation))]))
          else k
      ensures particles == Survivors(Spawned(old(particles),
        VjControls.UpdateParameters(old(knobs.params), c).intensity, old(knobs.colorPhase), spawn))
      ensures trails == PushTrail(old(trails), trailPoint)
      ensures gaTimer == NextTimer(old(gaTimer))
      ensures gaPopulation == if IsGeneration(old(gaTimer))
        then NextPopulation(old(gaPopulation),
          Breed(old(gaPopulation)[breed.parent1], old(gaPopulation)[breed.parent2], breed.ms, breed.mi, breed.mc))
        else old(gaPopulation)
      ensures rdU == ReactionDiffusion.StepU(old(rdU), old(rdV)) && rdV == ReactionDiffusion.StepV(old(rdU), old(rdV))
      ensures lifeGrid == Life.LifeStep(old(lifeGrid)) && Life.IsBinary(lifeGrid)
      ensures soundTimer == NextSoundTimer(old(soundTimer))
      ensures switched == if IsButtonPressed(c.b) then Some(knobs.patternType % Musics) else None
      ensures music == if soundTimer == 0 then Some(knobs.patternType % Musics) else None
    {
      TimerCycles(gaTimer);
      UpdateController(c, spawn, trailPoint);
      switched := if IsButtonPressed(c.b) then Some(knobs.patternType % Musics) else None;
      music := UpdateSimulations(breed);
    }

    /** The block of `update` that runs the new algorithms, after the controller lines. */
    method UpdateSimulations(breed: BreedDraw) returns (music: Option<int>)
      requires |gaPopulation| == PopulationSize && BreedDrawFits(breed) && 0 <= knobs.patternType
      requires ReactionDiffusion.IsField(rdU) && ReactionDiffusion.IsField(rdV)
      requires Life.IsGrid(lifeGrid) && 0 <= soundTimer
      modifies this`gaTimer, this`gaPopulation, this`knobs, this`rdU, this`rdV, this`lifeGrid, this`soundTimer
      ensures gaTimer == NextTimer(old(gaTimer))
      ensures knobs == if IsGeneration(old(gaTimer))
        then old(knobs).(params := Genes(old(gaPopulation)[FirstFittest(old(gaPopulation))]))
        else old(knobs)
      ensures gaPopulation == if IsGeneration(old(gaTimer))
        then NextPopulation(old(gaPopulation),
          Breed(old(gaPopulation)[breed.parent1], old(gaPopulation)[breed.parent2], breed.ms, breed.mi, breed.mc))
        else old(gaPopulation)
      ensures |gaPopulation| == PopulationSize
      ensures rdU == ReactionDiffusion.StepU(old(rdU), old(rdV)) && rdV == ReactionDiffusion.StepV(old(rdU), old(rdV))
      ensures ReactionDiffusion.IsField(rdU) && ReactionDiffusion.IsField(rdV)
      ensures lifeGrid == Life.LifeStep(old(lifeGrid)) && Life.IsBinary(lifeGrid)
      ensures soundTimer == NextSoundTimer(old(soundTimer))
      ensures music == if soundTimer == 0 then Some(knobs.patternType % Musics) else None
    {
      UpdateGeneticAlgorithm(breed);
      UpdateReactionDiffusion();
      UpdateGameOfLife();
      music := UpdateSound();
    }
  }
}
