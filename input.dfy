/**
 * The input helpers the demos share: an analog axis whose value the keyboard
 * can override, and a digital button that a gamepad button or any of its
 * keyboard keys can hold.  Engine polls are inputs: an axis is the gamepad's
 * reading plus the held state of its keys, in the order the demo lists them.
 */
module Input {

  const AxisMax: int := 32767
  const AxisMin: int := -32768

  /** The readings of one analog input: the gamepad value and whether each listed key is held. */
  datatype Axis = Axis(pad: int, keys: seq<bool>)

  /** The readings of one digital input: the gamepad button and whether each listed key is held. */
  datatype Button = Button(pad: bool, keys: seq<bool>)

  predicate InAxisRange(v: int) {
    AxisMin <= v <= AxisMax
  }

  /**
   * `get_analog_value` (also `get_axis`): with two keys the first held one
   * wins, the first pushing to the maximum, the second to the minimum; one
   * key pushes to the maximum; otherwise the gamepad value stands.
   */
  function AnalogValue(a: Axis): (v: int)
    ensures |a.keys| == 2 && a.keys[0] ==> v == AxisMax
    ensures |a.keys| == 2 && !a.keys[0] && a.keys[1] ==> v == AxisMin
    ensures |a.keys| == 1 && a.keys[0] ==> v == AxisMax
    ensures !KeyOverrides(a.keys) ==> v == a.pad
  {
    if |a.keys| == 2 then
      if a.keys[0] then AxisMax else if a.keys[1] then AxisMin else a.pad
    else if |a.keys| == 1 then
      if a.keys[0] then AxisMax else a.pad
    else
      a.pad
  }

  /** Whether the key list is of a length the override looks at and one of its keys is held. */
  predicate KeyOverrides(keys: seq<bool>) {
    (|keys| == 2 && (keys[0] || keys[1])) || (|keys| == 1 && keys[0])
  }

  /**
   * The variant of `get_analog_value` in the simple VJ demo: only a two-key
   * list is looked at, so a single key never overrides the gamepad.
   */
  function AnalogValueTwoKeys(a: Axis): (v: int)
    ensures |a.keys| == 2 && a.keys[0] ==> v == AxisMax
    ensures |a.keys| == 2 && !a.keys[0] && a.keys[1] ==> v == AxisMin
    ensures |a.keys| != 2 ==> v == a.pad
    ensures |a.keys| == 2 && !a.keys[0] && !a.keys[1] ==> v == a.pad
  {
    if |a.keys| == 2 then
      if a.keys[0] then AxisMax else if a.keys[1] then AxisMin else a.pad
    else
      a.pad
  }

  /** The two variants agree except on a single held key, where only the full one overrides. */
  lemma VariantsAgree(a: Axis)
    ensures |a.keys| != 1 ==> AnalogValueTwoKeys(a) == AnalogValue(a)
    ensures |a.keys| == 1 && a.keys[0] ==> AnalogValue(a) == AxisMax && AnalogValueTwoKeys(a) == a.pad
  {
  }

  /** A gamepad reading inside the engine's axis range stays inside it after the override. */
  lemma AnalogValueInRange(a: Axis)
    requires InAxisRange(a.pad)
    ensures InAxisRange(AnalogValue(a)) && InAxisRange(AnalogValueTwoKeys(a))
  {
  }

  /** `any(pyxel.btn(key) for key in keyboard_keys)`, scanning the keys left to right. */
  function AnyHeld(keys: seq<bool>): bool {
    if |keys| == 0 then false
    else if keys[0] then true
    else AnyHeld(keys[1..])
  }

  /** The scan reports a held key exactly when some listed key is held. */
  lemma {:induction false} AnyHeldIffSomeKey(keys: seq<bool>)
    ensures AnyHeld(keys) <==> exists i :: 0 <= i < |keys| && keys[i]
  {
    if |keys| > 0 && !keys[0] {
      AnyHeldIffSomeKey(keys[1..]);
      assert forall i :: 1 <= i < |keys| ==> keys[i] == keys[1..][i - 1];
    }
  }

  /** `is_button_pressed`: the gamepad button or any of its keys is held. */
  function IsButtonPressed(b: Button): bool {
    b.pad || AnyHeld(b.keys)
  }

  /** A button reads as pressed exactly when its gamepad button or one of its keys is held. */
  lemma ButtonPressedIff(b: Button)
    ensures IsButtonPressed(b) <==> b.pad || exists i :: 0 <= i < |b.keys| && b.keys[i]
  {
    AnyHeldIffSomeKey(b.keys);
  }
}
