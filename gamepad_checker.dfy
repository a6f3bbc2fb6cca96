/**
 * The gamepad checker (0002_gamepad_checker): one text row per analog input
 * and per button, stacked from y = 30 in steps of 10, each drawn in the
 * active colour while its input is in use, and every text centred on the
 * 256-pixel-wide screen.
 */
module GamepadChecker {
  import opened Input

  const ScreenWidth: int := 256
  const FontWidth: int := 8
  const TitleY: int := 10
  const StartY: int := 30
  const LineHeight: int := 10
  const ColorInactive: int := 7
  const ColorActive: int := 10

  const Title: string := "GAMEPAD1 INPUT TEST (Press START or ESC to exit)"

  /** The number of keys listed for each analog input: two for the sticks, one for the triggers. */
  const AnalogKeyCounts: seq<nat> := [2, 2, 2, 2, 1, 1]

  /** The number of buttons listed, each with one key. */
  const ButtonCount: nat := 15

  /**
   * `draw_centered_text`'s x for a text of `len` characters: what is left of
   * the screen width, floor-divided by 2, so both margins are equal.
   */
  function CenteredX(len: nat): (x: int)
    ensures 2 * x + FontWidth * len == ScreenWidth
    ensures len <= ScreenWidth / FontWidth <==> x >= 0
  {
    (ScreenWidth - len * FontWidth) / 2
  }

  /** The title is wider than the screen, so it starts left of it and is cut off. */
  lemma TitleStartsOffScreen()
    ensures |Title| == 48 && CenteredX(|Title|) == -64
  {
  }

  function RowColor(active: bool): (c: int)
    ensures c == ColorActive <==> active
    ensures c == ColorInactive <==> !active
  {
    if active then ColorActive else ColorInactive
  }

  /** One drawn row: its y and its colour. */
  datatype Row = Row(y: int, color: int)

  /** Whether row `k` shows an input in use: a non-zero axis value, or a pressed button after the axes. */
  predicate RowActive(analog: seq<Axis>, buttons: seq<Button>, k: int)
    requires 0 <= k < |analog| + |buttons|
  {
    if k < |analog| then AnalogValue(analog[k]) != 0 else IsButtonPressed(buttons[k - |analog|])
  }

  /** The rows `draw` lays out: the analog inputs first, then the buttons, one line apart. */
  function Rows(analog: seq<Axis>, buttons: seq<Button>): (r: seq<Row>)
    ensures |r| == |analog| + |buttons|
    ensures forall k :: 0 <= k < |r| ==> r[k].y == StartY + LineHeight * k
  {
    seq(|analog| + |buttons|, k requires 0 <= k < |analog| + |buttons| =>
      Row(StartY + LineHeight * k, RowColor(RowActive(analog, buttons, k))))
  }

  /**
   * The two loops of `draw`, advancing `current_y` by one line per row; the
   * row texts and their x are not modelled.
   */
  method Layout(analog: seq<Axis>, buttons: seq<Button>) returns (rows: seq<Row>)
    ensures rows == Rows(analog, buttons)
  {
    rows := [];
    var currentY := StartY;
    var k := 0;
    while k < |analog|
      invariant 0 <= k <= |analog| && |rows| == k && currentY == StartY + LineHeight * k
      invariant forall j :: 0 <= j < k ==> rows[j] == Rows(analog, buttons)[j]
    {
      var value := AnalogValue(analog[k]);
      var color := if value != 0 then ColorActive else ColorInactive;
      rows := rows + [Row(currentY, color)];
      currentY := currentY + LineHeight;
      k := k + 1;
    }
    k := 0;
    while k < |buttons|
      invariant 0 <= k <= |buttons| && |rows| == |analog| + k
      invariant currentY == StartY + LineHeight * (|analog| + k)
      invariant forall j :: 0 <= j < |analog| + k ==> rows[j] == Rows(analog, buttons)[j]
    {
      var color := if IsButtonPressed(buttons[k]) then ColorActive else ColorInactive;
      assert RowActive(analog, buttons, |analog| + k) == IsButtonPressed(buttons[k]);
      rows := rows + [Row(currentY, color)];
      currentY := currentY + LineHeight;
      k := k + 1;
    }
  }

  /** The positions of the right stick's axes among the analog inputs, and of the D-pad among the buttons. */
  const RightX: nat := 2
  const RightY: nat := 3
  const DpadUp: nat := 11
  const DpadDown: nat := 12
  const DpadLeft: nat := 13
  const DpadRight: nat := 14

  /**
   * The inputs the checker lists: six axes with 2, 2, 2, 2, 1, 1 keys and
   * fifteen one-key buttons.  The four arrow keys appear twice: Right and
   * Left are the keys of the right stick's X axis and of D-pad right and
   * left, Down and Up those of its Y axis and of D-pad down and up, so each
   * pair of listings reads the same key.
   */
  predicate CheckerInputs(analog: seq<Axis>, buttons: seq<Button>) {
    |analog| == |AnalogKeyCounts| && |buttons| == ButtonCount &&
    (forall k :: 0 <= k < |analog| ==> |analog[k].keys| == AnalogKeyCounts[k]) &&
    (forall k :: 0 <= k < |buttons| ==> |buttons[k].keys| == 1) &&
    analog[RightX].keys[0] == buttons[DpadRight].keys[0] && analog[RightX].keys[1] == buttons[DpadLeft].keys[0] &&
    analog[RightY].keys[0] == buttons[DpadDown].keys[0] && analog[RightY].keys[1] == buttons[DpadUp].keys[0]
  }

  /** Holding an arrow key lights two rows: the right stick axis it overrides and its D-pad button. */
  lemma ArrowKeyLightsTwoRows(analog: seq<Axis>, buttons: seq<Button>, k: int)
    requires CheckerInputs(analog, buttons) && DpadUp <= k <= DpadRight && buttons[k].keys[0]
    ensures var axis := if k <= DpadDown then RightY else RightX;
      Rows(analog, buttons)[axis].color == ColorActive &&
      Rows(analog, buttons)[|analog| + k].color == ColorActive
  {
    var axis := if k <= DpadDown then RightY else RightX;
    assert analog[axis].keys[0] || analog[axis].keys[1];
    assert AnalogValue(analog[axis]) != 0;
    assert RowActive(analog, buttons, |analog| + k) == IsButtonPressed(buttons[k]);
  }

  /**
   * With the checker's inputs there are 21 rows from y = 30 to y = 230, all
   * on the 256-pixel screen; a row is green exactly while its input is in
   * use, and a trigger's single key lights its row on its own.
   */
  lemma {:induction false} CheckerLayout(analog: seq<Axis>, buttons: seq<Button>)
    requires CheckerInputs(analog, buttons)
    ensures var r := Rows(analog, buttons);
      |r| == 21 && r[0].y == StartY && r[20].y == 230 &&
      (forall k :: 0 <= k < |r| ==> StartY <= r[k].y <= 230)
    ensures forall k :: 0 <= k < 6 ==> (Rows(analog, buttons)[k].color == ColorActive <==> AnalogValue(analog[k]) != 0)
    ensures forall k :: 0 <= k < 15 ==> (Rows(analog, buttons)[6 + k].color == ColorActive <==> IsButtonPressed(buttons[k]))
    ensures forall k :: 4 <= k < 6 && analog[k].keys[0] ==> Rows(analog, buttons)[k].color == ColorActive
  {
    var r := Rows(analog, buttons);
    forall k | 0 <= k < 15
      ensures r[6 + k].color == ColorActive <==> IsButtonPressed(buttons[k])
    {
      assert RowActive(analog, buttons, 6 + k) == IsButtonPressed(buttons[k]);
    }
    forall k | 4 <= k < 6 && analog[k].keys[0]
      ensures r[k].color == ColorActive
    {
      assert |analog[k].keys| == 1;
      assert AnalogValue(analog[k]) == AxisMax;
    }
  }
}
