/**
 * The gamepad VJ demo (0008_vj): three patterns cycled by A/J, each switch
 * playing one sound on channel 7, and a point placed on the 256x256 screen
 * by the left stick; plus the constant channel and tone tables the demo
 * loads into the engine's extended audio.
 */
module GamepadVj {
  import opened Wrappers
  import opened Input
  import opened Numeric

  const Width: int := 256
  const Height: int := 256
  const PatternCount: int := 3

  /** The channel that plays the switch sound. */
  const SwitchChannel: int := 7

  /** One row of the channel table: a gain and a detune. */
  datatype ChannelSetting = ChannelSetting(gain: real, detune: int)

  /** One row of the tone table: a gain, a noise flag and a 32-sample waveform. */
  datatype ToneSetting = ToneSetting(gain: real, noise: int, waveform: seq<int>)

  const ExtendedChannels: seq<ChannelSetting> := [
    ChannelSetting(0.1 / 2.0, 0),
    ChannelSetting(0.1 / 2.0, 20),
    ChannelSetting(0.1, 0),
    ChannelSetting(0.1 / 3.0, 0),
    ChannelSetting(0.1 / 3.0, 0),
    ChannelSetting(0.1 / 3.0, 0),
    ChannelSetting(0.1, 0),
    ChannelSetting(0.1, 0)
  ]

  const ExtendedTones: seq<ToneSetting> := [
    ToneSetting(0.8, 0, [15, 15, 15, 15, 15, 15, 15, 15, 15, 14, 13, 12, 11, 10, 9, 8] +
                        [7, 6, 5, 4, 3, 2, 1, 0, 0, 0, 0, 0, 0, 0, 0, 0]),
    ToneSetting(0.4, 0, [8, 9, 10, 12, 13, 14, 14, 15, 15, 15, 14, 14, 13, 12, 10, 9] +
                        [8, 6, 5, 3, 2, 1, 1, 0, 0, 0, 1, 1, 2, 3, 5, 6]),
    ToneSetting(0.7, 0, seq(4, _ => 15) + seq(28, _ => 0)),
    ToneSetting(1.0, 0, [15, 15, 14, 14, 13, 13, 12, 12, 11, 11, 10, 10, 9, 9, 8, 8] +
                        [7, 7, 6, 6, 5, 5, 4, 4, 3, 3, 2, 2, 1, 1, 0, 0]),
    ToneSetting(0.8, 1, seq(32, _ => 0))
  ]

  /** A waveform the engine accepts: 32 samples, each a 4-bit level. */
  predicate WaveformOk(w: seq<int>) {
    |w| == 32 && forall k :: 0 <= k < |w| ==> 0 <= w[k] <= 15
  }

  /** There is one channel setting per engine channel, and every tone has a well-formed waveform. */
  lemma TablesWellFormed()
    ensures |ExtendedChannels| == 8 && |ExtendedTones| == 5
    ensures forall c :: c in ExtendedChannels ==> c.gain > 0.0 && c.detune >= 0
    ensures forall t :: t in ExtendedTones ==> WaveformOk(t.waveform) && 0 <= t.noise <= 1
  {
    assert WaveformOk(ExtendedTones[0].waveform);
    assert WaveformOk(ExtendedTones[1].waveform);
    assert WaveformOk(ExtendedTones[2].waveform);
    assert WaveformOk(ExtendedTones[3].waveform);
    assert WaveformOk(ExtendedTones[4].waveform);
  }

  /** The pattern after one press: the next of the three, wrapping round. */
  function NextPattern(p: int): (r: int)
    ensures 0 <= r < PatternCount
    ensures 0 <= p < PatternCount - 1 ==> r == p + 1
    ensures p == PatternCount - 1 ==> r == 0
  {
    (p + 1) % PatternCount
  }

  /** Three presses bring any pattern back to itself, through both others. */
  lemma ThreePressesCycle(p: int)
    requires 0 <= p < PatternCount
    ensures NextPattern(p) != p && NextPattern(NextPattern(p)) != p
    ensures NextPattern(NextPattern(NextPattern(p))) == p
  {
  }

  /**
   * `int((axis + 32768) / 65535 * size)`: the stick reading mapped to a
   * screen coordinate, with the division and the product exact.  For the
   * 256-pixel screen the exact value is a whole number only at the two ends
   * of the axis range and elsewhere lies at least 1/65535 from one, far more
   * than the float rounding, so the truncation picks the same integer.
   */
  function PosFromAxis(axis: int, size: int): (pos: int) {
    TruncReal((axis + 32768) as real / 65535.0 * size as real)
  }

  /** Inside the axis range the position is on the screen's closed side range, with the ends at 0 and `size`. */
  lemma PosFromAxisRange(axis: int, size: nat)
    requires InAxisRange(axis)
    ensures 0 <= PosFromAxis(axis, size) <= size
    ensures axis == AxisMin ==> PosFromAxis(axis, size) == 0
    ensures axis == AxisMax ==> PosFromAxis(axis, size) == size
  {
    var f := (axis + 32768) as real / 65535.0;
    assert 0.0 <= f <= 1.0;
    NonNegativeScale(f, size as real);
    NonNegativeScale(1.0 - f, size as real);
    assert (1.0 - f) * size as real == size as real - f * size as real;
  }

  lemma NonNegativeScale(a: real, b: real)
    requires a >= 0.0 && b >= 0.0
    ensures a * b >= 0.0
  {
  }

  /** A larger stick reading never maps to a smaller position. */
  lemma PosFromAxisMonotone(a: int, b: int, size: nat)
    requires InAxisRange(a) && InAxisRange(b) && a <= b
    ensures PosFromAxis(a, size) <= PosFromAxis(b, size)
  {
    var fa := (a + 32768) as real / 65535.0;
    var fb := (b + 32768) as real / 65535.0;
    assert 0.0 <= fa <= fb;
    NonNegativeScale(fb - fa, size as real);
    NonNegativeScale(fa, size as real);
    assert (fb - fa) * size as real == fb * size as real - fa * size as real;
  }

  /** The readings `update` polls: the new press of A or J and the left stick with its two key pairs. */
  datatype ArtPad = ArtPad(switchPressed: bool, leftX: Axis, leftY: Axis)

  class VJArt {
    var currentPattern: int
    var t: int
    var posX: int
    var posY: int

    ghost predicate Valid()
      reads this
    {
      0 <= currentPattern < PatternCount && t >= 0
    }

    constructor ()
      ensures Valid()
      ensures currentPattern == 0 && t == 0 && posX == Width / 2 && posY == Height / 2
    {
      currentPattern, t := 0, 0;
      posX, posY := Width / 2, Height / 2;
    }

    /**
     * One `update`.  `sound` is the sound played on channel 7 when A/J
     * switches the pattern; quitting is not modelled.
     */
    method Update(i: ArtPad) returns (sound: Option<int>)
      requires Valid()
      modifies this
      ensures Valid()
      ensures t == old(t) + 1
      ensures currentPattern == if i.switchPressed then NextPattern(old(currentPattern)) else old(currentPattern)
      ensures sound == if i.switchPressed then Some(currentPattern) else None
      ensures posX == PosFromAxis(AnalogValue(i.leftX), Width) && posY == PosFromAxis(AnalogValue(i.leftY), Height)
      ensures InAxisRange(i.leftX.pad) ==> 0 <= posX <= Width
      ensures InAxisRange(i.leftY.pad) ==> 0 <= posY <= Height
    {
      t := t + 1;
      sound := None;
      if i.switchPressed {
        currentPattern := (currentPattern + 1) % PatternCount;
        sound := Some(currentPattern);
      }
      var axisX, axisY := AnalogValue(i.leftX), AnalogValue(i.leftY);
      if InAxisRange(i.leftX.pad) {
        AnalogValueInRange(i.leftX);
        PosFromAxisRange(axisX, Width);
      }
      if InAxisRange(i.leftY.pad) {
        AnalogValueInRange(i.leftY);
        PosFromAxisRange(axisY, Height);
      }
      posX := PosFromAxis(axisX, Width);
      posY := PosFromAxis(axisY, Height);
    }
  }
}
