/**
 * The per-frame controller logic shared, line for line, by the two enhanced
 * VJ demos (0005_vj and 0006_vj): the auto-beat counter, the clamped speed,
 * intensity, complexity and scale parameters, the wave, colour and rotation
 * phases, the pattern and sub-pattern cyclers, and the particle list and the
 * bounded trail.  The two demos differ only in how many patterns they cycle
 * through, which is a parameter here.
 */
module VjControls {
  import opened Input
  import opened Numeric

  /** The polls one `update` makes: each analog axis and digital button with its keyboard keys. */
  datatype Controls = Controls(
    glitchToggle: bool,  // KEY_C went down this frame
    leftX: Axis,         // GAMEPAD1_AXIS_LEFTX with D / A
    leftY: Axis,         // GAMEPAD1_AXIS_LEFTY with S / W
    rightX: Axis,        // GAMEPAD1_AXIS_RIGHTX with RIGHT / LEFT
    rightY: Axis,        // GAMEPAD1_AXIS_RIGHTY with DOWN / UP
    triggerLeft: Axis,   // GAMEPAD1_AXIS_TRIGGERLEFT with Q
    triggerRight: Axis,  // GAMEPAD1_AXIS_TRIGGERRIGHT with E
    a: Button,           // GAMEPAD1_BUTTON_A with J: beat
    b: Button,           // GAMEPAD1_BUTTON_B with K: next pattern
    x: Button,           // GAMEPAD1_BUTTON_X with U: previous sub-pattern
    y: Button,           // GAMEPAD1_BUTTON_Y with I: next sub-pattern
    leftShoulder: Button,  // with 1: slower
    rightShoulder: Button) // with 2: faster

  datatype Params = Params(speed: real, intensity: real, complexity: real)

  predicate ParamsInRange(p: Params) {
    0.5 <= p.speed <= 2.0 && 0.1 <= p.intensity <= 2.0 && 0.1 <= p.complexity <= 2.0
  }

  /** The scalar state one `update` rewrites. */
  datatype Knobs = Knobs(
    patternType: int, subPattern: int, autoBeat: int, beat: bool, glitch: bool,
    params: Params, wavePhase: real, colorPhase: real, rotation: real, scale: real)

  const AutoBeatPeriod: int := 30
  const SubPatterns: int := 4

  /** The values `__init__` gives the scalar state. */
  const InitialKnobs: Knobs :=
    Knobs(0, 0, 0, false, false, Params(1.0, 1.0, 1.0), 0.0, 0.0, 0.0, 1.0)

  predicate KnobsInRange(k: Knobs, patterns: int) {
    0 <= k.patternType < patterns && 0 <= k.subPattern < SubPatterns &&
    0 <= k.autoBeat < AutoBeatPeriod && 0.0 <= k.colorPhase < 16.0 && 0.1 <= k.scale <= 2.0
  }

  /** `update_parameters`: each parameter moves by its axis over 50000 and is clamped. */
  function UpdateParameters(p: Params, c: Controls): (r: Params)
    ensures ParamsInRange(r)
  {
    var triggerLeft := AnalogValue(c.triggerLeft);
    var triggerRight := AnalogValue(c.triggerRight);
    Params(
      MaxMin(0.5, 2.0, p.speed + AnalogValue(c.rightX) as real / 50000.0),
      MaxMin(0.1, 2.0, p.intensity + AnalogValue(c.rightY) as real / 50000.0),
      MaxMin(0.1, 2.0, p.complexity + (triggerRight - triggerLeft) as real / 50000.0))
  }

  function NextAutoBeat(autoBeat: int): int {
    (autoBeat + 1) % AutoBeatPeriod
  }

  function NextPattern(pattern: int, pressed: bool, patterns: int): int
    requires patterns > 0
  {
    if pressed then (pattern + 1) % patterns else pattern
  }

  /** X steps the sub-pattern back, then Y steps it forward, both modulo 4. */
  function NextSubPattern(sub: int, back: bool, forward: bool): int {
    var s := if back then (sub - 1) % SubPatterns else sub;
    if forward then (s + 1) % SubPatterns else s
  }

  /** The shoulder buttons: the left one takes 0.1 off, floored at 0.5; then the right one adds 0.1, capped at 2.0. */
  function ShoulderSpeed(speed: real, slower: bool, faster: bool): real {
    var s := if slower then (if speed - 0.1 > 0.5 then speed - 0.1 else 0.5) else speed;
    if faster then (if s + 0.1 < 2.0 then s + 0.1 else 2.0) else s
  }

  /** The scalar part of one `update`, in the order the source runs it. */
  function Step(k: Knobs, c: Controls, patterns: int): Knobs
    requires patterns > 0
  {
    var autoBeat := NextAutoBeat(k.autoBeat);
    var p := UpdateParameters(k.params, c);
    Knobs(
      NextPattern(k.patternType, IsButtonPressed(c.b), patterns),
      NextSubPattern(k.subPattern, IsButtonPressed(c.x), IsButtonPressed(c.y)),
      autoBeat,
      autoBeat == 0 || IsButtonPressed(c.a),
      if c.glitchToggle then !k.glitch else k.glitch,
      p.(speed := ShoulderSpeed(p.speed, IsButtonPressed(c.leftShoulder), IsButtonPressed(c.rightShoulder))),
      k.wavePhase + p.speed * 0.1,
      FloatMod(k.colorPhase + p.speed * 0.02, 16.0),
      k.rotation + AnalogValue(c.leftX) as real / 10000.0,
      MaxMin(0.1, 2.0, k.scale + AnalogValue(c.leftY) as real / 50000.0))
  }

  /** Every counter and cycler stays in range, whatever the parameters were before the frame. */
  lemma StepKeepsRanges(k: Knobs, c: Controls, patterns: int)
    requires patterns > 0 && KnobsInRange(k, patterns)
    ensures KnobsInRange(Step(k, c, patterns), patterns)
  {
  }

  /** After a frame the parameters lie in range, even when they did not before it. */
  lemma StepParamsInRange(k: Knobs, c: Controls, patterns: int)
    requires patterns > 0
    ensures ParamsInRange(Step(k, c, patterns).params)
  {
    var p := UpdateParameters(k.params, c);
    assert 0.5 <= ShoulderSpeed(p.speed, IsButtonPressed(c.leftShoulder), IsButtonPressed(c.rightShoulder)) <= 2.0;
  }

  /** The sub-pattern wraps to a non-negative value, and pressing X and Y together leaves it as it was. */
  lemma SubPatternCycles(sub: int, back: bool, forward: bool)
    requires 0 <= sub < SubPatterns
    ensures 0 <= NextSubPattern(sub, back, forward) < SubPatterns
    ensures back && !forward ==> NextSubPattern(sub, back, forward) == if sub == 0 then 3 else sub - 1
    ensures forward && !back ==> NextSubPattern(sub, back, forward) == if sub == 3 then 0 else sub + 1
    ensures back == forward ==> NextSubPattern(sub, back, forward) == sub
  {
  }

  /** The beat is on exactly when the auto-beat counter wraps to 0 or the A button is held. */
  lemma BeatRule(k: Knobs, c: Controls, patterns: int)
    requires patterns > 0 && 0 <= k.autoBeat < AutoBeatPeriod
    ensures Step(k, c, patterns).beat <==> k.autoBeat == AutoBeatPeriod - 1 || IsButtonPressed(c.a)
  {
  }

  /** The shoulder buttons keep a speed in [0.5, 2.0] there. */
  lemma ShoulderSpeedInRange(speed: real, slower: bool, faster: bool)
    requires 0.5 <= speed <= 2.0
    ensures 0.5 <= ShoulderSpeed(speed, slower, faster) <= 2.0
    ensures slower && !faster ==> ShoulderSpeed(speed, slower, faster) == MaxMin(0.5, 2.0, speed - 0.1)
    ensures faster && !slower ==> ShoulderSpeed(speed, slower, faster) == MaxMin(0.5, 2.0, speed + 0.1)
  {
  }

  // ----- particles -----

  datatype Particle = Particle(x: real, y: real, vx: real, vy: real, life: int, color: int)

  /**
   * The random draws of `update_particles`: the roll compared with
   * `intensity * 0.1`, and the velocity the random angle and speed give.
   */
  datatype SpawnDraw = SpawnDraw(roll: real, vx: real, vy: real)

  const ParticleLife: int := 60

  /** A particle is spawned at the screen centre (128, 128) when the roll is under a tenth of the intensity. */
  function Spawned(ps: seq<Particle>, intensity: real, colorPhase: real, d: SpawnDraw): seq<Particle> {
    if d.roll < intensity * 0.1 then
      ps + [Particle(128.0, 128.0, d.vx, d.vy, ParticleLife, TruncReal(colorPhase))]
    else
      ps
  }

  /** A particle one frame later: moved by its velocity, one frame less to live. */
  function Aged(p: Particle): Particle {
    p.(x := p.x + p.vx, y := p.y + p.vy, life := p.life - 1)
  }

  /** The particles that still live after ageing, in their original order. */
  function Survivors(ps: seq<Particle>): seq<Particle> {
    if |ps| == 0 then []
    else
      var rest := Survivors(ps[..|ps| - 1]);
      var p := Aged(ps[|ps| - 1]);
      if p.life > 0 then rest + [p] else rest
  }

  predicate LivesInRange(ps: seq<Particle>, lo: int, hi: int) {
    forall i :: 0 <= i < |ps| ==> lo <= ps[i].life <= hi
  }

  lemma {:induction false} SurvivorsAged(ps: seq<Particle>, lo: int, hi: int)
    requires LivesInRange(ps, lo, hi)
    ensures LivesInRange(Survivors(ps), 1, hi - 1)
    ensures |Survivors(ps)| <= |ps|
  {
    if |ps| > 0 {
      var front := ps[..|ps| - 1];
      assert LivesInRange(front, lo, hi) by {
        forall i | 0 <= i < |front| ensures lo <= front[i].life <= hi {
          assert front[i] == ps[i];
        }
      }
      SurvivorsAged(front, lo, hi);
    }
  }

  /**
   * The filter works particle by particle: the survivors of two lists put
   * together are the survivors of the first followed by those of the second,
   * so survivors keep their relative order.
   */
  lemma {:induction false} SurvivorsConcat(ps: seq<Particle>, qs: seq<Particle>)
    ensures Survivors(ps + qs) == Survivors(ps) + Survivors(qs)
    decreases |qs|
  {
    if |qs| == 0 {
      assert ps + qs == ps;
    } else {
      var front := qs[..|qs| - 1];
      assert (ps + qs)[..|ps + qs| - 1] == ps + front;
      assert (ps + qs)[|ps + qs| - 1] == qs[|qs| - 1];
      SurvivorsConcat(ps, front);
    }
  }

  /** One particle survives, aged, exactly when it has more than one frame left. */
  lemma SurvivorsOne(p: Particle)
    ensures Survivors([p]) == if p.life > 1 then [Aged(p)] else []
  {
    assert [p][..0] == [];
  }

  /** After a frame at most one particle was added and every particle has 1 to 59 frames left. */
  lemma ParticleStepBounds(ps: seq<Particle>, intensity: real, colorPhase: real, d: SpawnDraw)
    requires LivesInRange(ps, 1, ParticleLife - 1)
    ensures LivesInRange(Survivors(Spawned(ps, intensity, colorPhase, d)), 1, ParticleLife - 1)
    ensures |Survivors(Spawned(ps, intensity, colorPhase, d))| <= |ps| + 1
  {
    SurvivorsAged(Spawned(ps, intensity, colorPhase, d), 1, ParticleLife);
  }

  /** `update_particles`: maybe spawn one particle, then rebuild the list from the ones still alive. */
  method UpdateParticles(ps: seq<Particle>, intensity: real, colorPhase: real, d: SpawnDraw)
    returns (survivors: seq<Particle>)
    ensures survivors == Survivors(Spawned(ps, intensity, colorPhase, d))
  {
    var all := ps;
    if d.roll < intensity * 0.1 {
      all := all + [Particle(128.0, 128.0, d.vx, d.vy, ParticleLife, TruncReal(colorPhase))];
    }
    survivors := [];
    var i := 0;
    while i < |all|
      invariant 0 <= i <= |all|
      invariant survivors == Survivors(all[..i])
    {
      var p := all[i];
      p := p.(x := p.x + p.vx, y := p.y + p.vy, life := p.life - 1);
      if p.life > 0 {
        survivors := survivors + [p];
      }
      assert all[..i + 1][..i] == all[..i];
      i := i + 1;
    }
    assert all[..i] == all;
  }

  // ----- trail -----

  const TrailLength: int := 32

  /** Appending to `deque(maxlen=32)`: the newest point goes last and the oldest falls off a full deque. */
  function PushTrail(trail: seq<(real, real)>, point: (real, real)): seq<(real, real)> {
    var grown := trail + [point];
    if |grown| > TrailLength then grown[|grown| - TrailLength..] else grown
  }

  /** The trail never exceeds 32 points, ends with the newest one, and keeps the most recent points before it. */
  lemma PushTrailBounded(trail: seq<(real, real)>, point: (real, real))
    requires |trail| <= TrailLength
    ensures var r := PushTrail(trail, point);
      |r| <= TrailLength && r[|r| - 1] == point && r[..|r| - 1] == trail[|trail| + 1 - |r|..] &&
      |r| == if |trail| < TrailLength then |trail| + 1 else TrailLength
  {
  }
}
