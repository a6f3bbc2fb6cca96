/**
 * The toy genetic algorithm of the enhanced VJ demo: a population of
 * individuals with three genes (speed, intensity, complexity), evaluated by
 * the sum of their genes; a generation picks the fittest individual, breeds a
 * child from two parents and slides the population window along by one.
 */
module Genetic {

  const PopulationSize: int := 10

  /** A generation runs every 300 calls of `update_genetic_algorithm`. */
  const GenerationPeriod: int := 300

  datatype Individual = Individual(speed: real, intensity: real, complexity: real)

  function Fitness(ind: Individual): real {
    ind.speed + ind.intensity + ind.complexity
  }

  /** `k` holds a fittest individual of `pop` and no earlier individual is as fit. */
  predicate IsFirstFittest(pop: seq<Individual>, k: int) {
    0 <= k < |pop| &&
    (forall j :: 0 <= j < |pop| ==> Fitness(pop[j]) <= Fitness(pop[k])) &&
    (forall j :: 0 <= j < k ==> Fitness(pop[j]) < Fitness(pop[k]))
  }

  /**
   * Python's `max(pop, key=fitness)`: scanning left to right, a later
   * individual replaces the current best only when strictly fitter.
   */
  function FirstFittest(pop: seq<Individual>): (k: nat)
    requires |pop| > 0
    ensures IsFirstFittest(pop, k)
  {
    if |pop| == 1 then 0
    else
      var front := pop[..|pop| - 1];
      var k := FirstFittest(front);
      assert forall j :: 0 <= j < |front| ==> front[j] == pop[j];
      if Fitness(pop[|pop| - 1]) > Fitness(pop[k]) then |pop| - 1 else k
  }

  /** The fittest-first index is unique, so the predicate pins down the function's answer. */
  lemma FirstFittestUnique(pop: seq<Individual>, k: int)
    requires IsFirstFittest(pop, k)
    ensures k == FirstFittest(pop)
  {
  }

  /** The evaluation loop of `update_genetic_algorithm` together with `max`. */
  method SelectBest(pop: seq<Individual>) returns (best: nat)
    requires |pop| > 0
    ensures IsFirstFittest(pop, best)
  {
    best := 0;
    var i := 1;
    while i < |pop|
      invariant 1 <= i <= |pop|
      invariant IsFirstFittest(pop[..i], best)
    {
      if Fitness(pop[i]) > Fitness(pop[best]) {
        best := i;
      }
      i := i + 1;
    }
    assert pop[..i] == pop;
  }

  /**
   * The child of two parents: each gene is the parents' mean scaled by its
   * own mutation factor (drawn uniformly from [0.95, 1.05] by the source).
   */
  function Breed(p1: Individual, p2: Individual, ms: real, mi: real, mc: real): Individual {
    Individual(
      (p1.speed + p2.speed) / 2.0 * ms,
      (p1.intensity + p2.intensity) / 2.0 * mi,
      (p1.complexity + p2.complexity) / 2.0 * mc)
  }

  /** One gene of a child lies between 0.95 times the smaller bound and 1.05 times the larger. */
  lemma GeneBounds(a: real, b: real, m: real, lo: real, hi: real)
    requires 0.0 <= lo <= a <= hi && lo <= b <= hi && 0.95 <= m <= 1.05
    ensures 0.95 * lo <= (a + b) / 2.0 * m <= 1.05 * hi
  {
    var mean := (a + b) / 2.0;
    assert lo <= mean <= hi;
    NonNegativeProduct(mean, m - 0.95);
    NonNegativeProduct(mean, 1.05 - m);
    assert mean * (m - 0.95) == mean * m - 0.95 * mean;
    assert mean * (1.05 - m) == 1.05 * mean - mean * m;
  }

  lemma NonNegativeProduct(x: real, y: real)
    requires x >= 0.0 && y >= 0.0
    ensures x * y >= 0.0
  {
  }

  /** A child of parents whose speeds lie in [lo, hi] has a speed in [0.95 lo, 1.05 hi]. */
  lemma BreedSpeedBounds(p1: Individual, p2: Individual, ms: real, mi: real, mc: real, lo: real, hi: real)
    requires 0.0 <= lo <= p1.speed <= hi && lo <= p2.speed <= hi && 0.95 <= ms <= 1.05
    ensures 0.95 * lo <= Breed(p1, p2, ms, mi, mc).speed <= 1.05 * hi
  {
    GeneBounds(p1.speed, p2.speed, ms, lo, hi);
    assert Breed(p1, p2, ms, mi, mc).speed == (p1.speed + p2.speed) / 2.0 * ms;
  }

  /**
   * Breeding does not keep genes inside the range the controls clamp speed
   * to: two parents at the top speed and the largest mutation give 2.1.
   */
  lemma BreedCanLeaveSpeedRange()
    ensures Breed(Individual(2.0, 1.0, 1.0), Individual(2.0, 1.0, 1.0), 1.05, 1.0, 1.0).speed == 2.1
  {
  }

  /** Append the child, then drop the oldest individual once the window holds more than ten. */
  function NextPopulation(pop: seq<Individual>, child: Individual): seq<Individual> {
    var grown := pop + [child];
    if |grown| > PopulationSize then grown[1..] else grown
  }

  /** A full window stays full: the oldest leaves, the child enters last, the other nine keep their order. */
  lemma NextPopulationSlides(pop: seq<Individual>, child: Individual)
    requires |pop| == PopulationSize
    ensures |NextPopulation(pop, child)| == PopulationSize
    ensures NextPopulation(pop, child)[PopulationSize - 1] == child
    ensures NextPopulation(pop, child)[..PopulationSize - 1] == pop[1..]
  {
  }

  /** Whether the call that finds the timer at `t` runs a generation: the incremented timer reached 300. */
  predicate IsGeneration(timer: int) {
    timer + 1 >= GenerationPeriod
  }

  /** The timer after one call: incremented, and back to 0 on a generation. */
  function NextTimer(timer: int): int {
    if IsGeneration(timer) then 0 else timer + 1
  }

  /** The timer stays in 0..299, and a generation runs exactly on the call where it reaches 300. */
  lemma TimerCycles(timer: int)
    requires 0 <= timer < GenerationPeriod
    ensures 0 <= NextTimer(timer) < GenerationPeriod
    ensures IsGeneration(timer) <==> timer == GenerationPeriod - 1
    ensures !IsGeneration(timer) ==> NextTimer(timer) == timer + 1
  {
  }

  /** Calls that stay short of the period only count the timer up. */
  lemma {:induction false} TimerCountsUp(timer: int, n: nat)
    requires 0 <= timer && timer + n < GenerationPeriod
    ensures Iterate(timer, n) == timer + n
  {
    if n > 0 {
      TimerCountsUp(timer, n - 1);
    }
  }

  /** The timer after `n` calls without a generation between them. */
  function Iterate(timer: int, n: nat): int {
    if n == 0 then timer else NextTimer(Iterate(timer, n - 1))
  }

  /** From 0, the first 299 calls run no generation, the 300th runs one and the timer is back at 0. */
  lemma FullCycle()
    ensures forall n: nat :: n < GenerationPeriod - 1 ==> !IsGeneration(Iterate(0, n))
    ensures IsGeneration(Iterate(0, GenerationPeriod - 1)) && Iterate(0, GenerationPeriod) == 0
  {
    forall n: nat | n < GenerationPeriod - 1
      ensures !IsGeneration(Iterate(0, n))
    {
      TimerCountsUp(0, n);
    }
    TimerCountsUp(0, GenerationPeriod - 1);
  }
}
