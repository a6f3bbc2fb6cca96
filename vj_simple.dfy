/**
 * The simple VJ demo (0003_vj_simple): four drawing patterns whose rotation,
 * scale, colour and pattern the sticks (or the arrow and WASD keys) steer,
 * with a beat on A/J and one sound per face button.
 */
module VjSimple {
  import opened Input
  import opened Numeric

  const Colors: int := 16
  const Patterns: int := 4
  const MinScale: real := 0.1
  const MaxScale: real := 2.0

  /** The colour and the pattern move by `int(value / 10000.0)` per frame. */
  const StepDivisor: int := 10000

  /** The frame's readings: the four axes with their key pairs and the four face buttons. */
  datatype SimplePad = SimplePad(leftX: Axis, leftY: Axis, rightX: Axis, rightY: Axis,
                                 a: Button, b: Button, x: Button, y: Button)

  /**
   * `int(value / 10000.0)`: whole steps of 10000, truncated toward zero, so
   * the two key values give +3 and -3 (floor division would give -4) and the
   * stick's rest zone gives 0.
   */
  function AxisSteps(v: int): (s: int)
    ensures InAxisRange(v) ==> -3 <= s <= 3
    ensures -StepDivisor < v < StepDivisor ==> s == 0
    ensures v == AxisMax ==> s == 3
    ensures v == AxisMin ==> s == -3
    ensures (v >= 0 ==> s >= 0) && (v <= 0 ==> s <= 0)
  {
    TruncDiv(v, StepDivisor)
  }

  /** The positive key of a pair moves the colour or pattern by +3, the negative one by -3. */
  lemma KeyStepsByThree(a: Axis)
    requires |a.keys| == 2
    ensures a.keys[0] ==> AxisSteps(AnalogValueTwoKeys(a)) == 3
    ensures !a.keys[0] && a.keys[1] ==> AxisSteps(AnalogValueTwoKeys(a)) == -3
    ensures !a.keys[0] && !a.keys[1] && -StepDivisor < a.pad < StepDivisor ==> AxisSteps(AnalogValueTwoKeys(a)) == 0
  {
  }

  /** The inputs `update` reads: two keys for each stick axis and one for each face button. */
  predicate SimpleInputs(p: SimplePad) {
    |p.leftX.keys| == 2 && |p.leftY.keys| == 2 && |p.rightX.keys| == 2 && |p.rightY.keys| == 2 &&
    |p.a.keys| == 1 && |p.b.keys| == 1 && |p.x.keys| == 1 && |p.y.keys| == 1
  }

  /**
   * With the demo's inputs, Right (Down) steps the colour (the pattern) by +3
   * and Left (Up) by -3, Right (Down) winning when both are held.
   */
  lemma ArrowKeysStep(p: SimplePad)
    requires SimpleInputs(p)
    ensures p.rightX.keys[0] ==> AxisSteps(AnalogValueTwoKeys(p.rightX)) == 3
    ensures !p.rightX.keys[0] && p.rightX.keys[1] ==> AxisSteps(AnalogValueTwoKeys(p.rightX)) == -3
    ensures p.rightY.keys[0] ==> AxisSteps(AnalogValueTwoKeys(p.rightY)) == 3
    ensures !p.rightY.keys[0] && p.rightY.keys[1] ==> AxisSteps(AnalogValueTwoKeys(p.rightY)) == -3
  {
    KeyStepsByThree(p.rightX);
    KeyStepsByThree(p.rightY);
  }

  /** The colour cycle wraps both ways: +3 from colour 14 gives 1, -3 from colour 1 gives 14. */
  lemma ColorWraps()
    ensures (14 + AxisSteps(AxisMax)) % Colors == 1
    ensures (1 + AxisSteps(AxisMin)) % Colors == 14
  {
  }

  /** The sounds a frame starts, in order: sound k on channel k for A/J, B/K, X/U and Y/I. */
  function Played(p: SimplePad): (r: seq<int>)
    ensures |r| <= 4
    ensures forall k :: 0 <= k < |r| ==> 0 <= r[k] < 4
    ensures forall j, k :: 0 <= j < k < |r| ==> r[j] < r[k]
    ensures 0 in r <==> IsButtonPressed(p.a)
    ensures 1 in r <==> IsButtonPressed(p.b)
    ensures 2 in r <==> IsButtonPressed(p.x)
    ensures 3 in r <==> IsButtonPressed(p.y)
  {
    var r1 := [] + Optional(IsButtonPressed(p.a), 0);
    var r2 := r1 + Optional(IsButtonPressed(p.b), 1);
    var r3 := r2 + Optional(IsButtonPressed(p.x), 2);
    var r4 := r3 + Optional(IsButtonPressed(p.y), 3);
    AppendOptional([], IsButtonPressed(p.a), 0);
    AppendOptional(r1, IsButtonPressed(p.b), 1);
    AppendOptional(r2, IsButtonPressed(p.x), 2);
    AppendOptional(r3, IsButtonPressed(p.y), 3);
    r4
  }

  /** The sound `id` when its button is pressed, else nothing. */
  function Optional(pressed: bool, id: int): seq<int> {
    if pressed then [id] else []
  }

  /** Sound ids in `[0, bound)`, each larger than the one before. */
  predicate Ascending(s: seq<int>, bound: int) {
    (forall k :: 0 <= k < |s| ==> 0 <= s[k] < bound) &&
    (forall j, k :: 0 <= j < k < |s| ==> s[j] < s[k])
  }

  /** Appending sound `id` after smaller ones keeps the list ascending, and `id` is in it iff its button is pressed. */
  lemma AppendOptional(s: seq<int>, pressed: bool, id: int)
    requires id >= 0 && Ascending(s, id)
    ensures var t := s + Optional(pressed, id);
      Ascending(t, id + 1) && |t| <= |s| + 1 && (id in t <==> pressed) &&
      forall x :: x != id ==> (x in t <==> x in s)
  {
  }

  /** The button checks of `update`, collecting the sounds they start. */
  method PlaySounds(p: SimplePad) returns (sounds: seq<int>)
    ensures sounds == Played(p)
  {
    sounds := [];
    if IsButtonPressed(p.a) {
      sounds := sounds + [0];
    }
    assert sounds == Optional(IsButtonPressed(p.a), 0);
    if IsButtonPressed(p.b) {
      sounds := sounds + [1];
    }
    assert sounds == Optional(IsButtonPressed(p.a), 0) + Optional(IsButtonPressed(p.b), 1);
    if IsButtonPressed(p.x) {
      sounds := sounds + [2];
    }
    if IsButtonPressed(p.y) {
      sounds := sounds + [3];
    }
  }

  class VJSimple {
    var patternType: int
    var rotation: real
    var scale: real
    var color: int
    var beat: bool

    /** The cyclers and the clamp keep their ranges. */
    ghost predicate Valid()
      reads this
    {
      0 <= patternType < Patterns && MinScale <= scale <= MaxScale && 0 <= color < Colors
    }

    constructor ()
      ensures Valid()
      ensures patternType == 0 && rotation == 0.0 && scale == 1.0 && color == 7 && !beat
    {
      patternType, rotation, scale, color, beat := 0, 0.0, 1.0, 7, false;
    }

    /**
     * One `update`: the left stick turns and scales, the right stick steps
     * the colour and the pattern, A/J holds the beat.  `sounds` lists the
     * sounds `pyxel.play` starts; quitting is not modelled.
     */
    method Update(p: SimplePad) returns (sounds: seq<int>)
      requires Valid()
      modifies this
      ensures Valid()
      ensures rotation == old(rotation) + AnalogValueTwoKeys(p.leftX) as real / 10000.0
      ensures scale == MaxMin(MinScale, MaxScale, old(scale) + AnalogValueTwoKeys(p.leftY) as real / 50000.0)
      ensures color == (old(color) + AxisSteps(AnalogValueTwoKeys(p.rightX))) % Colors
      ensures patternType == (old(patternType) + AxisSteps(AnalogValueTwoKeys(p.rightY))) % Patterns
      ensures beat == IsButtonPressed(p.a)
      ensures sounds == Played(p)
    {
      rotation := rotation + AnalogValueTwoKeys(p.leftX) as real / 10000.0;
      scale := MaxMin(MinScale, MaxScale, scale + AnalogValueTwoKeys(p.leftY) as real / 50000.0);
      color := (color + AxisSteps(AnalogValueTwoKeys(p.rightX))) % Colors;
      patternType := (patternType + AxisSteps(AnalogValueTwoKeys(p.rightY))) % Patterns;
      beat := IsButtonPressed(p.a);
      sounds := PlaySounds(p);
    }
  }

  const StarPoints: int := 5

  /** The radius factor of star vertex `i`: 0.5 at the odd (inner) vertices, 1.0 at the even (outer) ones. */
  function RadiusFactor(i: int): real {
    if i % 2 != 0 then 0.5 else 1.0
  }

  /** The radii of the vertex loop of `draw_star`. */
  method StarRadii(scale: real) returns (radii: seq<real>)
    ensures |radii| == 2 * StarPoints
    ensures forall i :: 0 <= i < |radii| ==> radii[i] == 100.0 * scale * RadiusFactor(i)
  {
    radii := [];
    var i := 0;
    while i < StarPoints * 2
      invariant 0 <= i <= 2 * StarPoints && |radii| == i
      invariant forall j :: 0 <= j < i ==> radii[j] == 100.0 * scale * RadiusFactor(j)
    {
      radii := radii + [100.0 * scale * (if i % 2 != 0 then 0.5 else 1.0)];
      i := i + 1;
    }
  }

  /**
   * Outer and inner vertices alternate all the way round, so every edge the
   * line loop draws, the closing edge from vertex 9 back to 0 included,
   * joins an outer vertex to an inner one.
   */
  lemma StarEdgesAlternate(i: int)
    requires 0 <= i < 2 * StarPoints
    ensures {RadiusFactor(i), RadiusFactor((i + 1) % (2 * StarPoints))} == {0.5, 1.0}
  {
  }
}
