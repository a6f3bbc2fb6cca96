# pyxel-examples, the frame logic in Dafny

pyxel-examples is a set of small Python demos for the pyxel retro game
engine. Each demo is an `update` method called once per frame, plus drawing
code. This project models the discrete state logic inside those `update`
methods and proves what the demos promise about it:

- **action game** (`0001_action_game`): the player's movement, dash, shield
  and power-mode timers; bullets and energy balls; enemy spawning and chasing;
  hit, damage and score accounting; game over and reset.
- **gamepad checker** (`0002_gamepad_checker`): the row layout, the colour of
  each row, and the centred-text x formula.
- **simple VJ** (`0003_vj_simple`): rotation, clamped scale, colour and
  pattern cyclers stepped by `int(value / 10000.0)`, the beat, the sounds, and
  the star's vertex radii.
- **enhanced VJ** (`0005_vj`): auto-beat, clamped parameters, pattern and
  sub-pattern cyclers, the particle list, and the 32-point trail deque.
- **extended VJ** (`0006_vj`): the same controller with eight patterns, plus
  Conway's Game of Life on a 32 x 32 torus, the border-preserving shape of
  the Gray-Scott reaction-diffusion step, the genetic-algorithm population
  window and timer, and the music timer.
- **media-art VJ** (`0007_vj`): the frame ticker, pattern selection where the
  last check wins, and music restarted only on a pattern change.
- **gamepad VJ** (`0008_vj`): the pattern cycle with its switch sound, the
  stick-to-pixel mapping, and the constant channel and tone tables.

Each `update` is the `Update` method of a class that holds the demo's
attributes. The engine's reads (`btn`, `btnp`, `btnv`) and the `random` draws
become method parameters. Functions modelling a demo's rules are pure
functions, and each method is proved equal to them. Where the source loops
(the Life and reaction-diffusion grid loops, the list loops of the action
game, the GA's max scan, the checker's row loop), the model has a method with
the same loop.

Modelling choices:
- Python floats are exact `real`s.
- Python `%` with a positive modulus is Dafny's `%` on integers and
  `Numeric.FloatMod` on reals.
- `int()` truncates toward zero (`Numeric.TruncDiv`, `Numeric.TruncReal`),
  which differs from Dafny's Euclidean `/` on negative numbers.
- `max(lo, min(hi, x))` is `Numeric.MaxMin`.
- `math.atan2/cos/sin/sqrt` are given functions in the `ActionRules.Maths`
  record, so the model does not depend on their values.

Modules:

| module | file | models |
|---|---|---|
| `Input` | input.dfy | `get_analog_value`, `get_axis`, `is_button_pressed` |
| `Numeric` | numeric.dfy | the Python operators |
| `Wrappers` | wrappers.dfy | `Option` |
| `ActionRules` | action_rules.dfy | the action game's rules |
| `ActionGame` | action_game.dfy | the `Game` class and its loops |
| `GamepadChecker` | gamepad_checker.dfy | 0002 |
| `VjSimple` | vj_simple.dfy | 0003 |
| `VjControls` | vj_controls.dfy | the controller shared by 0005 and 0006 |
| `EnhancedVj` | enhanced_vj.dfy | 0005 |
| `Life` | life.dfy | 0006's Game of Life |
| `ReactionDiffusion` | reaction_diffusion.dfy | 0006's reaction-diffusion grids |
| `Genetic` | genetic.dfy | 0006's genetic algorithm |
| `EnhancedVjSims` | enhanced_vj_sims.dfy | 0006 |
| `MediaArtVj` | media_art_vj.dfy | 0007 |
| `GamepadVj` | gamepad_vj.dfy | 0008 |

## Model

| member | source | states |
|---|---|---|
| Input.AnalogValue | 0005_vj/vj.py:214-225 | With two keys, a held first key gives 32767, else a held second key gives -32768. With one key, a held key gives 32767. With no override, the gamepad value is returned unchanged. |
| Input.AnalogValueTwoKeys | 0003_vj_simple/vj_simple.py:117-127 | The simple demo's variant: only a two-key list overrides (first key 32767, then second key -32768); every other list leaves the gamepad value. |
| Input.VariantsAgree | 0003_vj_simple/vj_simple.py:117-127 | The two variants agree except on a single held key, where only the full variant overrides. |
| Input.AnalogValueInRange | 0008_vj/vj.py:118-129 | A gamepad reading in [-32768, 32767] stays in that range after either override. |
| Input.AnyHeldIffSomeKey | 0005_vj/vj.py:227-229 | The left-to-right `any` scan is true iff some listed key is held. |
| Input.ButtonPressedIff | 0002_gamepad_checker/gamepad_checker.py:71-74 | A button reads as pressed iff its gamepad button or one of its keys is held. |
| Numeric.MaxMin | 0005_vj/vj.py:119-125 | `max(lo, min(hi, x))` lies in [lo, hi], is x inside the range, and is the nearer bound outside it. |
| Numeric.FloatMod | 0005_vj/vj.py:113 | Python's float `%` by a positive modulus lies in [0, m), differs from x by m times the floor of x / m, and leaves values already in [0, m) unchanged. |
| Numeric.FloatModUnique | 0005_vj/vj.py:113 | Any value in [0, m) that differs from x by a whole multiple k of m is the remainder, and k is the floor of x / m. |
| Numeric.TruncDiv | 0003_vj_simple/vj_simple.py:84-89 | `int(a / d)` truncates toward zero: bounds on the quotient for both signs of a. |
| Numeric.TruncReal | 0008_vj/vj.py:146-147 | `int(x)` truncates toward zero: n <= x < n+1 for x >= 0, and n-1 < x <= n for x < 0. |
| Numeric.TruncDivNotFloor | 0003_vj_simple/vj_simple.py:84-89 | `int(-32768 / 10000)` is -3, whereas Euclidean division gives -4. |
| Life.NeighbourCountIsEightNeighbours | 0006_vj/vj.py:352-359 | The count the offset loops produce equals the sum of the eight toroidally wrapped neighbours, without the cell itself. |
| Life.NeighbourCountRange | 0006_vj/vj.py:352-359 | On a 0/1 grid, the neighbour count lies in 0..8. |
| Life.LifeStepIsBinary | 0006_vj/vj.py:349-370 | A step returns a 32 x 32 grid whose every cell is 0 or 1. |
| Life.LifeStepRule | 0006_vj/vj.py:360-369 | B3/S23 in both directions: a live cell is alive next iff it has 2 or 3 neighbours; a dead cell is alive next iff it has exactly 3. |
| Life.CountNeighbours | 0006_vj/vj.py:352-359 | The two offset loops, skipping the centre, compute the neighbour count. |
| Life.Step | 0006_vj/vj.py:347-370 | The nested row and column loops over a fresh zero grid produce the next generation. |
| ReactionDiffusion.BorderUnchanged | 0006_vj/vj.py:278-297 | The step keeps both grids 32 x 32 and leaves every border cell (row or column 0 or 31) as it was. |
| ReactionDiffusion.StepIsLocal | 0006_vj/vj.py:280-295 | An interior cell's new U and V depend only on the old values at the cell and its four orthogonal neighbours. |
| ReactionDiffusion.StepRow | 0006_vj/vj.py:282-295 | Recomputing the interior cells of one row left to right from the old grids gives that row of the functional step, on both grids. |
| ReactionDiffusion.Step | 0006_vj/vj.py:272-297 | Copying both grids and recomputing the interior in row-major order gives the functional step on both grids. |
| Genetic.FirstFittest | 0006_vj/vj.py:256 | `max(population, key=fitness)` returns an individual at least as fit as every other, with none before it as fit. |
| Genetic.FirstFittestUnique | 0006_vj/vj.py:256 | Only one index is first-fittest, so any index satisfying the predicate is the one `max` picks. |
| Genetic.SelectBest | 0006_vj/vj.py:254-256 | The scan over the population finds the first fittest individual. |
| Genetic.GeneBounds | 0006_vj/vj.py:262-266 | A child's gene, the parents' mean times a factor in [0.95, 1.05], lies in [0.95 lo, 1.05 hi]. |
| Genetic.BreedSpeedBounds | 0006_vj/vj.py:263 | With parent speeds in [lo, hi], the child's speed is in [0.95 lo, 1.05 hi]. |
| Genetic.BreedCanLeaveSpeedRange | 0006_vj/vj.py:257-266 | Breeding can leave the speed range the controls clamp to: two parents at 2.0 with factor 1.05 give 2.1. |
| Genetic.NextPopulationSlides | 0006_vj/vj.py:267-269 | A full window of 10 stays at 10: the child is appended last and index 0 is dropped, while the other nine keep their order. |
| Genetic.TimerCycles | 0006_vj/vj.py:252-253 | `ga_timer` stays in 0..299. A generation runs exactly on the call where the timer reaches 300; otherwise the timer only counts up. |
| Genetic.TimerCountsUp | 0006_vj/vj.py:252 | Calls that stay short of 300 only add one each. |
| Genetic.FullCycle | 0006_vj/vj.py:252-270 | From 0, the first 299 calls run no generation, the 300th runs one, and the timer is back at 0. |
| VjControls.UpdateParameters | 0005_vj/vj.py:152-179 | After `update_parameters`, speed is in [0.5, 2.0], and intensity and complexity are in [0.1, 2.0], whatever they were before. |
| VjControls.StepKeepsRanges | 0005_vj/vj.py:93-150 | One `update` keeps pattern_type in 0..patterns-1, sub_pattern in 0..3, auto_beat in 0..29, color_phase in [0, 16) and scale in [0.1, 2.0]. |
| VjControls.StepParamsInRange | 0005_vj/vj.py:147-150 | The shoulder-button speed change keeps speed in [0.5, 2.0] for the whole frame. |
| VjControls.SubPatternCycles | 0006_vj/vj.py:168-173 | X steps sub_pattern back and Y steps it forward, both wrapping to non-negative values. Pressing both, or neither, leaves it unchanged. |
| VjControls.BeatRule | 0005_vj/vj.py:93-98 | `beat` is true iff auto_beat wraps to 0 this frame or A/J is held. |
| VjControls.ShoulderSpeedInRange | 0005_vj/vj.py:147-150 | The left shoulder gives `max(0.5, speed - 0.1)`, the right shoulder gives `min(2.0, speed + 0.1)`, and both keep speed in [0.5, 2.0]. |
| VjControls.SurvivorsAged | 0005_vj/vj.py:198-205 | If every particle's life is in [lo, hi] before ageing, every survivor's life is in [1, hi-1] afterwards, and the list does not grow. |
| VjControls.SurvivorsConcat | 0005_vj/vj.py:198-205 | The survivors of two lists joined are the survivors of each, in order, so survivors keep their relative order. |
| VjControls.SurvivorsOne | 0005_vj/vj.py:199-204 | One particle is kept, moved and one frame older, exactly when it had more than one frame left. |
| VjControls.ParticleStepBounds | 0005_vj/vj.py:181-205 | After `update_particles`, at most one particle has been added and every particle has life in 1..59. |
| VjControls.UpdateParticles | 0005_vj/vj.py:181-205 | The spawn check and the rebuild loop compute the spawned-then-aged-and-filtered list. |
| VjControls.PushTrailBounded | 0005_vj/vj.py:207-212 | Appending to `deque(maxlen=32)` keeps at most 32 points with the newest last, preceded by the most recent old ones. |
| EnhancedVj.EnhancedVJ.constructor | 0005_vj/vj.py:14-63 | The initial attributes: pattern 0, sub-pattern 0, speed, intensity and complexity 1.0, scale 1.0, and empty particles and trails. |
| EnhancedVj.EnhancedVJ.Update | 0005_vj/vj.py:82-150 | One frame: the scalar step, the particle step with the new intensity and the old colour phase, and the trail push. The music id `playm` restarts is the new pattern when B/K is pressed. All ranges are kept. |
| EnhancedVjSims.InitialField | 0006_vj/vj.py:57-65 | The reaction-diffusion grids start 32 x 32 with one value everywhere except the centre cell (16, 16). |
| EnhancedVjSims.SoundTimerCycles | 0006_vj/vj.py:372-377 | `sound_timer` stays in 0..19 and wraps exactly after 19; the music restarted is `pattern_type % 4`. |
| EnhancedVjSims.EnhancedVJ.constructor | 0006_vj/vj.py:16-81 | The initial attributes, with the random population (10 individuals with genes in range) and the random 0/1 life grid as parameters. |
| EnhancedVjSims.EnhancedVJ.UpdateController | 0006_vj/vj.py:126-184 | The controller lines of `update` are the shared scalar, particle and trail steps with eight patterns. |
| EnhancedVjSims.EnhancedVJ.UpdateGeneticAlgorithm | 0006_vj/vj.py:250-270 | On the generation call, the parameters take the genes of the first fittest individual of the population before the child, the child enters the window, one leaves, and the timer restarts. On other calls only the timer counts up. |
| EnhancedVjSims.EnhancedVJ.UpdateReactionDiffusion | 0006_vj/vj.py:272-297 | Both grids advance one step and stay 32 x 32. |
| EnhancedVjSims.EnhancedVJ.UpdateGameOfLife | 0006_vj/vj.py:347-370 | The life grid advances one generation and holds only 0 and 1. |
| EnhancedVjSims.EnhancedVJ.UpdateSound | 0006_vj/vj.py:372-377 | The timer counts up and wraps at 20; the music restarted on the wrap is `pattern_type % 4`. |
| EnhancedVjSims.EnhancedVJ.Update | 0006_vj/vj.py:121-191 | One whole frame, stated field by field. The GA overwrites the clamped parameters on a generation. The two music outputs are the pattern switch and the sound timer. Grids, population size, timers and cyclers stay in range. |
| EnhancedVjSims.EnhancedVJ.UpdateSimulations | 0006_vj/vj.py:186-191 | The GA, reaction-diffusion, life and sound steps run in that order. |
| MediaArtVj.Selected | 0007_vj/vj.py:24-31 | The last selector check wins: A/3 gives 2 over RIGHTSHOULDER/2, which gives 1 over LEFTSHOULDER/1, which gives 0. No press keeps the pattern. |
| MediaArtVj.SelectedInRange | 0007_vj/vj.py:24-31 | The pattern stays in {0, 1, 2}, and selecting twice is the same as selecting once. |
| MediaArtVj.MusicOf | 0007_vj/vj.py:36-45 | The looping sound of pattern p is p + 3, for exactly the patterns 0, 1 and 2. |
| MediaArtVj.VJ.constructor | 0007_vj/vj.py:7-16 | pattern 0, last_pattern -1, ticker 0. |
| MediaArtVj.VJ.Update | 0007_vj/vj.py:19-46 | The ticker counts modulo 1000. The pattern is the selection, and last_pattern equals it afterwards. Music starts (pattern + 3) only when the pattern differs from the old last_pattern. |
| MediaArtVj.FirstUpdateTriggers | 0007_vj/vj.py:14-34 | The first update always starts the music, because last_pattern starts at -1. |
| MediaArtVj.RestartsOnlyOnChange | 0007_vj/vj.py:34-46 | After the first update, music restarts iff the selection moves to another pattern; re-selecting the current one does nothing. |
| GamepadVj.TablesWellFormed | 0008_vj/vj.py:5-42 | There are 8 channel settings with positive gain and non-negative detune, and 5 tones, each with a 32-sample waveform in 0..15 and noise 0 or 1. |
| GamepadVj.NextPattern | 0008_vj/vj.py:138-139 | A press advances the pattern by 1 modulo 3, staying in 0..2. |
| GamepadVj.ThreePressesCycle | 0008_vj/vj.py:106-139 | Three presses return to the start through both other patterns. |
| GamepadVj.PosFromAxisRange | 0008_vj/vj.py:146-147 | For axis values in [-32768, 32767], the position is in [0, size]; -32768 maps to 0 and 32767 to size. |
| GamepadVj.PosFromAxisMonotone | 0008_vj/vj.py:146-147 | The axis-to-position mapping is monotone non-decreasing. |
| GamepadVj.VJArt.constructor | 0008_vj/vj.py:106-114 | pattern 0, t 0, and the position at the screen centre (128, 128). |
| GamepadVj.VJArt.Update | 0008_vj/vj.py:131-147 | t increases by exactly 1. An A/J press advances the pattern and plays the new index on channel 7. The position is the mapped axis value, inside [0, WIDTH] x [0, HEIGHT] for in-range axes. |
| VjSimple.AxisSteps | 0003_vj_simple/vj_simple.py:84-89 | `int(v / 10000.0)`: in -3..3 on the axis range, 0 for \|v\| < 10000, +3 at 32767 and -3 at -32768, with the sign of v. |
| VjSimple.KeyStepsByThree | 0003_vj_simple/vj_simple.py:82-101 | The positive key steps colour or pattern by +3, the negative key by -3, and a resting stick by 0. |
| VjSimple.ArrowKeysStep | 0003_vj_simple/vj_simple.py:82-101 | With the demo's inputs (two keys per axis, one per button), Right and Down step colour and pattern by +3, Left and Up by -3, and the first key wins. |
| VjSimple.ColorWraps | 0003_vj_simple/vj_simple.py:82-90 | The colour wraps both ways: 14 + 3 gives 1, and 1 - 3 gives 14. |
| VjSimple.Played | 0003_vj_simple/vj_simple.py:104-115 | Sound k is started iff face button k (A/J, B/K, X/U, Y/I) is held, and no other sound starts. The sounds start in increasing order, each at most once. |
| VjSimple.AppendOptional | 0003_vj_simple/vj_simple.py:104-115 | One more button check appends its sound after the smaller ones, iff its button is held, and changes nothing else in the list. |
| VjSimple.PlaySounds | 0003_vj_simple/vj_simple.py:104-115 | The four button checks collect exactly those sounds, in that order. |
| VjSimple.VJSimple.constructor | 0003_vj_simple/vj_simple.py:21-26 | pattern 0, rotation 0, scale 1.0, colour 7, no beat. |
| VjSimple.VJSimple.Update | 0003_vj_simple/vj_simple.py:57-115 | Rotation moves by value / 10000; scale moves by value / 50000, clamped to [0.1, 2.0]. Colour in 0..15 and pattern in 0..3 step by truncated tens of thousands. beat is exactly A/J held. |
| VjSimple.StarRadii | 0003_vj_simple/vj_simple.py:170-176 | 10 vertices: even indices at radius 100 * scale, odd indices at half that. |
| VjSimple.StarEdgesAlternate | 0003_vj_simple/vj_simple.py:178-181 | Every edge of the closed loop, including 9 back to 0, joins an outer vertex to an inner one. |
| GamepadChecker.CenteredX | 0002_gamepad_checker/gamepad_checker.py:100-103 | (256 - 8 len) // 2 leaves equal margins, and x >= 0 iff the text has at most 32 characters. |
| GamepadChecker.TitleStartsOffScreen | 0002_gamepad_checker/gamepad_checker.py:80-81 | The 48-character title gets x = -64. |
| GamepadChecker.RowColor | 0002_gamepad_checker/gamepad_checker.py:15-16 | Colour 10 iff active, colour 7 iff not. |
| GamepadChecker.Rows | 0002_gamepad_checker/gamepad_checker.py:83-98 | There is one row per analog input and per button, and row k is at y = 30 + 10 k. |
| GamepadChecker.Layout | 0002_gamepad_checker/gamepad_checker.py:83-98 | The two loops of `draw`, advancing `current_y` by 10, lay out those rows. |
| GamepadChecker.CheckerLayout | 0002_gamepad_checker/gamepad_checker.py:11-45 | With the checker's 6 analog inputs and 15 buttons there are 21 rows, from y = 30 to y = 230. A row is colour 10 iff its value is non-zero or its button is pressed. A held trigger key lights its row. |
| GamepadChecker.ArrowKeyLightsTwoRows | 0002_gamepad_checker/gamepad_checker.py:21-44 | The arrow keys are listed both for the right stick and for the D-pad, so holding one lights both its axis row and its D-pad row. |
| ActionRules.PlayerStep | 0001_action_game/action_game.py:72-156 | After `update_player` the player lies in [0, 152] x [0, 112], the shield is exactly X/U held, no dash runs without B/K held, and health and score are unchanged. |
| ActionRules.DashCooldownRule | 0001_action_game/action_game.py:99-100 | dash_cooldown stays in 0..30 and drops by 1 while positive. A dash starts only from a counted-down 0, setting it to 30, and lasts only while B/K is held. |
| ActionRules.PowerTimerRule | 0001_action_game/action_game.py:103-106 | Y/I starts power mode with timer 60. While on, the timer drops by 1 and the mode ends when it reaches 0. |
| ActionRules.ShotsAppended | 0001_action_game/action_game.py:109-123 | A/J appends one bullet at the player's centre with speed 4; the trigger or E appends one growing ball of size 4; nothing else changes the lists. |
| ActionRules.SpawnTimerCycles | 0001_action_game/action_game.py:160-167 | spawn_timer stays in 0..29. An enemy can appear only on the wrap frame, at the left or right edge, with health 2 (normal) or 4 (elite). |
| ActionRules.Chase | 0001_action_game/action_game.py:170-176 | The chase step keeps the enemy's kind and health. |
| ActionRules.Chased | 0001_action_game/action_game.py:170-176 | Chasing keeps every enemy in order, each with its kind and health. |
| ActionRules.BulletsStep | 0001_action_game/action_game.py:180-189 | The bullet pass never adds bullets. |
| ActionRules.BulletsStepKeepsOnScreen | 0001_action_game/action_game.py:180-189 | A bullet remains iff it is a moved old bullet still on the screen. |
| ActionRules.BallStepOk | 0001_action_game/action_game.py:192-200 | A ball grows by 0.5 until size 20, then shrinks by 0.5; it is removed exactly when it is shrinking at size 0.5 or less, and otherwise stays in (0, 20]. |
| ActionRules.BallsStep | 0001_action_game/action_game.py:192-200 | The ball pass never adds balls. |
| ActionRules.BallsStepOk | 0001_action_game/action_game.py:150-155 | Every retained ball has size in (0, 20]. |
| ActionRules.EffectsStep | 0001_action_game/action_game.py:202-207 | The effect pass never adds effects. |
| ActionRules.EffectsStepCountsDown | 0001_action_game/action_game.py:204-207 | An effect remains iff it is an old effect counted down by 1 with its timer still >= 1. |
| ActionRules.EffectsStepLive | 0001_action_game/action_game.py:204-207 | Every effect that remains has timer >= 1. |
| ActionRules.FirstTouched | 0001_action_game/action_game.py:214-217 | The inner bullet loop stops at the first enemy the bullet touches, or at none. |
| ActionRules.ShootStep | 0001_action_game/action_game.py:211-226 | A bullet touching no enemy stays and nothing else changes. A bullet touching some enemy hits the first one it touches and only that one. That enemy loses exactly 1 health and is removed, scoring its points, at 1 or less. The bullet is used up and one hit effect of timer 5 is left at the enemy's position. |
| ActionRules.ShootStepCounts | 0001_action_game/action_game.py:211-226 | A bullet either stays, with nothing else changed, or is used up: one hit effect of timer 5, at most one enemy removed, scoring 1 or 2. |
| ActionRules.ShootAccounting | 0001_action_game/action_game.py:211-226 | Over the bullet pass, every bullet either stays in order or is used up and leaves exactly one hit effect of timer 5. |
| ActionRules.ShootScores | 0001_action_game/action_game.py:211-226 | Each enemy the bullet pass removes scores 1 or 2, so the score never drops. No more enemies are removed than bullets are used up. No surviving enemy has health <= 0. |
| ActionRules.SweepAccounting | 0001_action_game/action_game.py:229-238 | One ball's sweep scores 1 or 2 per enemy it removes and leaves no enemy at health <= 0. |
| ActionRules.BurnAccounting | 0001_action_game/action_game.py:229-238 | The same holds for the whole ball pass. |
| ActionRules.HarmCounts | 0001_action_game/action_game.py:241-250 | The contact pass costs 10 health and adds one damage effect per touching enemy; game over once health <= 0. |
| ActionRules.NewWorldOk | 0001_action_game/action_game.py:49-54 | The reset game satisfies the between-frames invariant. |
| ActionRules.PlayerPhaseOk | 0001_action_game/action_game.py:66 | `update_player` keeps the invariant. |
| ActionRules.EnemyPhaseOk | 0001_action_game/action_game.py:67 | `update_enemies` keeps the invariant. |
| ActionRules.ProjectilePhaseOk | 0001_action_game/action_game.py:68-69 | `update_projectiles` and `update_effects` keep the invariant. |
| ActionRules.CollisionStepOk | 0001_action_game/action_game.py:70 | `check_collisions` keeps the invariant and never lowers the score. |
| ActionRules.FrameKeepsWorldOk | 0001_action_game/action_game.py:56-70 | Every frame keeps the invariant: player on screen with timers in range, bullets on screen, balls in range, enemies alive, effects running, spawn timer in 0..29, and game over iff health <= 0. |
| ActionRules.GameOverWaits | 0001_action_game/action_game.py:61-64 | While game over, a frame does nothing except reset on A/Space. |
| ActionRules.ScoreNeverDecreases | 0001_action_game/action_game.py:56-70 | A running frame never lowers the score. |
| ActionRules.ShieldBlocksDamage | 0001_action_game/action_game.py:241-242 | With the shield or power mode on, the frame costs no health and does not end the game. |
| ActionRules.ContactsByPosition | 0001_action_game/action_game.py:241-247 | Contacts depend only on the player's position. |
| ActionRules.ContactDamageRule | 0001_action_game/action_game.py:241-250 | Without shield or power mode, health drops by 10 per touching enemy, and game over holds iff health <= 0. |
| ActionGame.FlyOne | 0001_action_game/action_game.py:181-189 | One visit of the bullet loop keeps the loop invariant: the live list is the bullet pass over the bullets visited so far, followed by the bullets not yet visited. |
| ActionGame.FlyBullets | 0001_action_game/action_game.py:180-189 | The loop over a copy, moving and removing bullets in the live list, computes the bullet pass. |
| ActionGame.AgeOne | 0001_action_game/action_game.py:193-200 | One visit of the ball loop keeps the loop invariant: the live list is the ball pass over the balls visited so far, followed by the balls not yet visited. |
| ActionGame.AgeBalls | 0001_action_game/action_game.py:192-200 | The ball loop, updating and removing balls in place, computes the ball pass. |
| ActionGame.CountDownOne | 0001_action_game/action_game.py:205-207 | One visit of the effect loop keeps the loop invariant: the live list is the effect pass over the effects visited so far, followed by the effects not yet visited. |
| ActionGame.CountDownEffects | 0001_action_game/action_game.py:202-207 | The effect loop computes the effect pass. |
| ActionGame.ChaseAll | 0001_action_game/action_game.py:170-176 | The chase loop moves every enemy. |
| ActionGame.FindTarget | 0001_action_game/action_game.py:214-217 | The inner loop's break finds the first touched enemy. |
| ActionGame.ShootOne | 0001_action_game/action_game.py:212-226 | One bullet's scan of the enemies advances the bullet pass by that bullet: the live bullets, enemies, effects and score after it are those of the functional pass over one more bullet. |
| ActionGame.ShootEnemies | 0001_action_game/action_game.py:211-226 | The nested bullet loop computes the bullet pass. |
| ActionGame.SweepEnemies | 0001_action_game/action_game.py:230-238 | One ball's loop over a copy of the enemies computes its sweep. |
| ActionGame.BurnEnemies | 0001_action_game/action_game.py:229-238 | The ball loop computes the ball pass. |
| ActionGame.HarmPlayer | 0001_action_game/action_game.py:241-250 | The contact loop computes the contact pass. |
| ActionGame.MovePlayer | 0001_action_game/action_game.py:74-96 | The key override, the walk and the clamp compute the movement. |
| ActionGame.TickPlayer | 0001_action_game/action_game.py:99-106 | The cooldown and power timer lines compute the timer step. |
| ActionGame.PressButtons | 0001_action_game/action_game.py:109-156 | The fire, dash, shield, power and ball lines compute the button step. |
| ActionGame.Game.constructor | 0001_action_game/action_game.py:44-54 | A new game is the reset game, which satisfies the invariant. |
| ActionGame.Game.ResetGame | 0001_action_game/action_game.py:49-54 | Player at (80, 60) with health 100, score 0, no bullets, balls, dash, shield or power; no enemies or effects; not game over; spawn timer 0. |
| ActionGame.Game.Update | 0001_action_game/action_game.py:56-70 | One frame maps the game's state by the frame function and keeps the invariant. |
| ActionGame.Game.UpdatePlayer | 0001_action_game/action_game.py:72-156 | The player takes its step. |
| ActionGame.Game.UpdateEnemies | 0001_action_game/action_game.py:158-176 | The spawn timer advances, the arrival joins the end of the list, and all enemies chase the player's new position. |
| ActionGame.Game.UpdateProjectiles | 0001_action_game/action_game.py:178-200 | The bullets and the balls take their passes, and nothing else about the player changes. |
| ActionGame.Game.UpdateEffects | 0001_action_game/action_game.py:202-207 | The effects take their pass. |
| ActionGame.Collide | 0001_action_game/action_game.py:209-258 | The bullet, ball and contact passes, run on the game's attributes as values, compute the collision function. |
| ActionGame.Game.CheckCollisions | 0001_action_game/action_game.py:209-258 | The game's state is mapped by the collision function. |

## Left out

- Floating point: floats are exact reals, so the model does not capture rounding. The two places where this could matter are the
  repeated `health -= 0.1` of an energy ball (0001_action_game/action_game.py:236), where ten float
  subtractions from 1.0 need not reach exactly 0, and the 0.1 speed and 0.02 colour steps.
- `math.atan2/cos/sin/sqrt` are uninterpreted (`ActionRules.Maths`), so the chase direction, the
  bullet angle and the walk direction are not computed, only carried through.
- Randomness is a parameter (`EnemyDraw`, `SpawnDraw`, `BreedDraw`, the initial GA population and
  life grid). The probabilities 0.3, 0.2 and `intensity * 0.1` appear only as comparisons with the draw.
- The Boids update of 0006 (0006_vj/vj.py:299-345) is not modelled: it is float and square-root
  arithmetic with no discrete state.
- The reaction-diffusion interior formula is written out but nothing is proved about its values.
  Only the shape of the step is proved: which cells change, and the stencil they read.
- The drawing calls (`pyxel.cls/line/circ/rect/tri/text/pset`) are left out. Of the `draw*` code, only the
  gamepad checker's row layout, row colours and centring formula, and the star's vertex radii and edge
  order, are modelled. The checker's row texts (and so the x of each row), the pattern drawings, the
  beat scale, and the enemy and effect colours are not modelled.
- The controller readings of 0005/0006 (`VjControls.Controls`) carry key lists of any length; no
  predicate restricts them to the two keys per stick and one per button that the demos pass. The
  contracts hold for every reading.
- Sound setup (`init_sound`, `extend_audio`, `setup_music`) is not modelled; playback appears only as the
  returned sound or music id. The glitch toggle's and the auto-beat's sound effects are not returned.
- `pyxel.init/run/quit` and quitting on START/ESC are left out: the engine's lifecycle.
- The trail points of 0005/0006 are a parameter, because they are trigonometry of `pyxel.frame_count`.
  The particle velocity is part of the spawn draw.
- 0009_solar_system_simulator is not part of this model: it is trigonometric animation.
- `list.remove(value)` on the bullet, ball and effect dicts is modelled as removal at the position
  being visited. An earlier equal element would already have been removed when it was visited, so
  the first equal element is always the visited one. Enemies are objects, removed by identity, and
  that is the same position.
- `Player`, `Enemy` and the dicts are values, not objects. The source never shares one object between two lists, so aliasing does not arise.
- The 0005/0006 controller attributes (pattern, sub-pattern, beat, glitch, parameters, phases,
  rotation, scale) are one record field `knobs` of the class, not ten fields.
- EnhancedVjSims.EnhancedVJ.Update: states no bound on speed, intensity and complexity at the end of
  a frame, because a generation copies genes that breeding can push outside the clamps
  (`Genetic.BreedCanLeaveSpeedRange`).
- GamepadVj.VJArt.Update: the position ranges hold only for gamepad readings inside the engine's axis
  range [-32768, 32767], a property of the engine taken as a hypothesis.
- GamepadChecker.Rows: the contract states the row count and the y positions, not the colours; the
  colours of the checker's own inputs are stated by `GamepadChecker.CheckerLayout`.
- ActionRules.Chase: the contract does not state where the enemy moves, because the step length
  depends on the uninterpreted square root.
