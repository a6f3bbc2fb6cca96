/**
 * The rules of the action game (0001_action_game): one frame of the player,
 * the enemies, the projectiles, the effects and the collisions, as pure
 * functions on a snapshot of the game.  The engine reads of a frame are a
 * `Pad` value, the random draws an `EnemyDraw` and the trigonometry a `Maths`
 * value; the `Game` class of the ActionGame module runs these steps with the
 * source's loops.
 */
module ActionRules {
  import opened Wrappers
  import opened Numeric

  const Width: int := 160
  const Height: int := 120
  const PlayerSize: int := 8
  const EnemySize: int := 8
  const WalkSpeed: int := 2
  const DashSpeed: int := 4
  const DashCooldown: int := 30
  const PowerDuration: int := 60
  const BulletSpeed: int := 4
  const BallStartSize: real := 4.0
  const BallMaxSize: real := 20.0
  const SpawnPeriod: int := 30
  const DeadZone: int := 10000
  const HitTimer: int := 5
  const DamageTimer: int := 10
  const ContactDamage: int := 10

  /** The furthest the player's top-left corner may go: the screen minus the player's size. */
  const MaxX: real := (Width - PlayerSize) as real
  const MaxY: real := (Height - PlayerSize) as real

  datatype Bullet = Bullet(x: real, y: real, angle: real, speed: real)

  datatype Ball = Ball(x: real, y: real, size: real, growing: bool)

  datatype EnemyKind = Normal | Elite

  /** An enemy; its speed and size follow from its kind (`Enemy.__init__`). */
  datatype Enemy = Enemy(x: real, y: real, kind: EnemyKind, health: real)

  datatype EffectKind = HitEffect | DamageEffect

  datatype Effect = Effect(x: real, y: real, kind: EffectKind, timer: int)

  /** The attributes of `Player` that change; speed, dash speed, size and colour are the constants above. */
  datatype Player = Player(
    x: real, y: real,
    shieldActive: bool, dashActive: bool, powerMode: bool, powerTimer: int,
    bullets: seq<Bullet>, balls: seq<Ball>,
    dashCooldown: int, health: int, score: int)

  /** The attributes of `Game`. */
  datatype World = World(player: Player, enemies: seq<Enemy>, effects: seq<Effect>, gameOver: bool, spawnTimer: int)

  /**
   * The engine reads of one frame.  `left`/`right`/`up`/`down` say whether
   * an arrow key or its WASD partner is held; the `...Pressed` fields are
   * `btnp` (pressed this frame), `dashHeld` is B or K held, `shieldHeld` X
   * or U held and `eHeld` the E key held.
   */
  datatype Pad = Pad(
    leftX: int, leftY: int, left: bool, right: bool, up: bool, down: bool,
    rightX: int, rightY: int,
    aPressed: bool, jPressed: bool, bPressed: bool, kPressed: bool, dashHeld: bool,
    shieldHeld: bool, powerPressed: bool, triggerRight: int, eHeld: bool, spacePressed: bool)

  /** The `math` functions the movement uses, as given functions. */
  datatype Maths = Maths(atan2: (real, real) -> real, cos: real -> real, sin: real -> real, sqrt: real -> real) {
    /** The length of the vector (dx, dy). */
    function Hypot(dx: real, dy: real): real {
      sqrt(dx * dx + dy * dy)
    }

    /** The displacement of a step of `length` along `angle`. */
    function Stride(angle: real, length: real): (real, real) {
      (cos(angle) * length, sin(angle) * length)
    }
  }

  /** The `random` draws of a spawn: whether an enemy appears, whether it is elite, its side and its row. */
  datatype EnemyDraw = EnemyDraw(appear: real, elite: real, rightSide: bool, y: int)

  function Abs(v: int): int {
    if v < 0 then -v else v
  }

  function RAbs(v: real): real {
    if v < 0.0 then -v else v
  }

  function Speed(kind: EnemyKind): int {
    if kind == Normal then 1 else 2
  }

  function Points(kind: EnemyKind): int {
    if kind == Elite then 2 else 1
  }

  function NewEnemy(x: int, y: int, kind: EnemyKind): Enemy {
    Enemy(x as real, y as real, kind, if kind == Normal then 2.0 else 4.0)
  }

  /** `Player(80, 60)`. */
  const NewPlayer: Player := Player(80.0, 60.0, false, false, false, 0, [], [], 0, 100, 0)

  /** The game after `reset_game`. */
  const NewWorld: World := World(NewPlayer, [], [], false, 0)

  function Remove<T>(s: seq<T>, k: int): seq<T>
    requires 0 <= k < |s|
  {
    s[..k] + s[k + 1..]
  }

  // ----- update_player -----

  /** The stick value after the keyboard override of `update_player`: -32767 or 32767, the first key winning. */
  function Steer(pad: int, negative: bool, positive: bool): int {
    if negative then -32767 else if positive then 32767 else pad
  }

  predicate OutsideDeadZone(a: int, b: int) {
    Abs(a) > DeadZone || Abs(b) > DeadZone
  }

  predicate Fires(i: Pad) {
    i.aPressed || i.jPressed
  }

  predicate DashPressed(i: Pad) {
    i.bPressed || i.kPressed
  }

  predicate ThrowsBall(i: Pad) {
    i.triggerRight > DeadZone || i.eHeld
  }

  /** A bullet flies along the right stick, or to the right when the stick is in its dead zone. */
  function FireAngle(i: Pad, m: Maths): real {
    if OutsideDeadZone(i.rightX, i.rightY) then m.atan2(i.rightY as real, i.rightX as real) else 0.0
  }

  /** The player's position before the screen clamp: a step of `speed` along the stick, outside the dead zone. */
  function Walked(p: Player, i: Pad, m: Maths): (real, real) {
    var lx, ly := Steer(i.leftX, i.left, i.right), Steer(i.leftY, i.up, i.down);
    var speed := (if p.dashActive then DashSpeed else WalkSpeed) as real;
    if OutsideDeadZone(lx, ly) then
      var angle := m.atan2(ly as real, lx as real);
      var step := m.Stride(angle, speed);
      (p.x + step.0, p.y + step.1)
    else
      (p.x, p.y)
  }

  /** Whether the player is in power mode with the timer counting down, or out of it with the timer spent. */
  predicate PowerInv(p: Player) {
    if p.powerMode then 1 <= p.powerTimer <= PowerDuration else p.powerTimer == 0
  }

  /** The first part of `update_player`: the walk, then the clamp to the screen. */
  function Moved(p: Player, i: Pad, m: Maths): Player {
    var (wx, wy) := Walked(p, i, m);
    p.(x := MaxMin(0.0, MaxX, wx), y := MaxMin(0.0, MaxY, wy))
  }

  /** The timers of `update_player`: the dash cooldown counts down to 0, power mode ends when its timer runs out. */
  function Ticked(p: Player): Player {
    var timer := if p.powerMode then p.powerTimer - 1 else p.powerTimer;
    p.(dashCooldown := if p.dashCooldown > 0 then p.dashCooldown - 1 else p.dashCooldown,
       powerMode := p.powerMode && timer > 0, powerTimer := timer)
  }

  /** The buttons of `update_player`, in order: fire, dash, shield, power mode, ball. */
  function Pressed(p: Player, i: Pad, m: Maths): Player {
    var centre := (p.x + (PlayerSize / 2) as real, p.y + (PlayerSize / 2) as real);
    var dashStarts := DashPressed(i) && p.dashCooldown <= 0;
    p.(bullets := if Fires(i) then p.bullets + [Bullet(centre.0, centre.1, FireAngle(i, m), BulletSpeed as real)] else p.bullets,
       dashActive := (dashStarts || p.dashActive) && i.dashHeld,
       dashCooldown := if dashStarts then DashCooldown else p.dashCooldown,
       shieldActive := i.shieldHeld,
       powerMode := p.powerMode || i.powerPressed,
       powerTimer := if i.powerPressed then PowerDuration else p.powerTimer,
       balls := if ThrowsBall(i) then p.balls + [Ball(centre.0, centre.1, BallStartSize, true)] else p.balls)
  }

  /** `update_player`: movement, timers, then buttons. */
  function PlayerStep(p: Player, i: Pad, m: Maths): (r: Player)
    ensures 0.0 <= r.x <= MaxX && 0.0 <= r.y <= MaxY
    ensures r.shieldActive == i.shieldHeld
    ensures !i.dashHeld ==> !r.dashActive
    ensures r.health == p.health && r.score == p.score
  {
    Pressed(Ticked(Moved(p, i, m)), i, m)
  }

  /**
   * The dash cooldown never goes negative and counts down by one a frame;
   * a dash starts only when the counted-down value is 0 (the old value at
   * most 1), and then the cooldown is 30; a dash lasts only while B/K is held.
   */
  lemma DashCooldownRule(p: Player, i: Pad, m: Maths)
    requires 0 <= p.dashCooldown <= DashCooldown
    ensures var r := PlayerStep(p, i, m); 0 <= r.dashCooldown <= DashCooldown
    ensures var r := PlayerStep(p, i, m); var starts := DashPressed(i) && p.dashCooldown <= 1;
      (starts ==> r.dashCooldown == DashCooldown && r.dashActive == i.dashHeld) &&
      (!starts ==> r.dashCooldown == (if p.dashCooldown > 0 then p.dashCooldown - 1 else 0) &&
                   r.dashActive == (p.dashActive && i.dashHeld))
  {
  }

  /**
   * Y/I starts power mode with the timer at 60; otherwise, in power mode, the
   * timer counts down and the mode ends on the frame it reaches 0.
   */
  lemma PowerTimerRule(p: Player, i: Pad, m: Maths)
    requires PowerInv(p)
    ensures PowerInv(PlayerStep(p, i, m))
    ensures var r := PlayerStep(p, i, m);
      (i.powerPressed ==> r.powerMode && r.powerTimer == PowerDuration) &&
      (!i.powerPressed && p.powerMode ==> r.powerTimer == p.powerTimer - 1 && (r.powerMode <==> r.powerTimer > 0)) &&
      (!i.powerPressed && !p.powerMode ==> !r.powerMode && r.powerTimer == 0)
  {
  }

  /** A/J adds one bullet at the player's centre, the trigger or E one growing ball of size 4; nothing else is added. */
  lemma ShotsAppended(p: Player, i: Pad, m: Maths)
    ensures var r := PlayerStep(p, i, m);
      r.bullets == p.bullets + (if Fires(i) then [Bullet(r.x + 4.0, r.y + 4.0, FireAngle(i, m), 4.0)] else []) &&
      r.balls == p.balls + (if ThrowsBall(i) then [Ball(r.x + 4.0, r.y + 4.0, 4.0, true)] else [])
  {
  }

  // ----- update_enemies -----

  /** The spawn timer after a frame: counted up, back to 0 when it reaches 30. */
  function NextSpawnTimer(t: int): int {
    if t + 1 >= SpawnPeriod then 0 else t + 1
  }

  /** The enemy spawned this frame, if any: 30% of timer expiries, 20% of them elite, at the left or right edge. */
  function Arrival(t: int, d: EnemyDraw): Option<Enemy> {
    if t + 1 >= SpawnPeriod && d.appear < 0.3 then
      Some(NewEnemy(if d.rightSide then Width else 0, d.y, if d.elite < 0.2 then Elite else Normal))
    else
      None
  }

  /** The timer stays in 0..29 and an enemy can appear only on the frame it wraps, with the health of its kind. */
  lemma SpawnTimerCycles(t: int, d: EnemyDraw)
    requires 0 <= t < SpawnPeriod
    ensures 0 <= NextSpawnTimer(t) < SpawnPeriod
    ensures NextSpawnTimer(t) == 0 <==> t == SpawnPeriod - 1
    ensures Arrival(t, d).Some? <==> t == SpawnPeriod - 1 && d.appear < 0.3
    ensures Arrival(t, d).Some? ==>
      var e := Arrival(t, d).value;
      (e.x == 0.0 || e.x == Width as real) && e.health == (if e.kind == Elite then 4.0 else 2.0)
  {
  }

  /** One enemy's chase step: `speed` pixels towards the player, unless it sits on the player's corner. */
  function Chase(e: Enemy, px: real, py: real, m: Maths): (r: Enemy)
    ensures r.kind == e.kind && r.health == e.health
  {
    var dx, dy := px - e.x, py - e.y;
    var dist := m.Hypot(dx, dy);
    if dist > 0.0 then
      e.(x := e.x + dx / dist * Speed(e.kind) as real, y := e.y + dy / dist * Speed(e.kind) as real)
    else
      e
  }

  /** The movement loop of `update_enemies`: every enemy, in order, keeps its kind and health and takes its chase step. */
  function Chased(es: seq<Enemy>, px: real, py: real, m: Maths): (r: seq<Enemy>)
    ensures |r| == |es|
    ensures forall k :: 0 <= k < |es| ==> r[k].kind == es[k].kind && r[k].health == es[k].health
  {
    seq(|es|, k requires 0 <= k < |es| => Chase(es[k], px, py, m))
  }

  function OptionSeq<T>(o: Option<T>): seq<T> {
    if o.Some? then [o.value] else []
  }

  /** `update_enemies`: the arrival, if any, joins the end of the list, then every enemy chases the player. */
  function EnemiesStep(es: seq<Enemy>, t: int, d: EnemyDraw, px: real, py: real, m: Maths): seq<Enemy> {
    Chased(es + OptionSeq(Arrival(t, d)), px, py, m)
  }

  // ----- update_projectiles -----

  function Flown(b: Bullet, m: Maths): Bullet {
    var step := m.Stride(b.angle, b.speed);
    b.(x := b.x + step.0, y := b.y + step.1)
  }

  predicate OnScreen(b: Bullet) {
    !(b.x < 0.0 || b.x > Width as real || b.y < 0.0 || b.y > Height as real)
  }

  /** The bullet loop of `update_projectiles`: each bullet flies, and those off the screen are dropped. */
  function BulletsStep(bs: seq<Bullet>, m: Maths): (r: seq<Bullet>)
    ensures |r| <= |bs|
  {
    if |bs| == 0 then []
    else
      var kept := BulletsStep(bs[..|bs| - 1], m);
      var b := Flown(bs[|bs| - 1], m);
      if OnScreen(b) then kept + [b] else kept
  }

  /** A bullet survives the step exactly when it is one of the flown bullets and is still on the screen. */
  lemma {:induction false} BulletsStepKeepsOnScreen(bs: seq<Bullet>, m: Maths, b: Bullet)
    ensures b in BulletsStep(bs, m) <==> OnScreen(b) && exists k :: 0 <= k < |bs| && b == Flown(bs[k], m)
  {
    if |bs| > 0 {
      var front := bs[..|bs| - 1];
      BulletsStepKeepsOnScreen(front, m, b);
      if b in BulletsStep(bs, m) && b !in BulletsStep(front, m) {
        assert b == Flown(bs[|bs| - 1], m);
      }
      if OnScreen(b) && (exists k :: 0 <= k < |bs| && b == Flown(bs[k], m)) {
        var k :| 0 <= k < |bs| && b == Flown(bs[k], m);
        if k < |bs| - 1 {
          assert b == Flown(front[k], m);
        }
      }
    }
  }

  /** A ball's size is a whole number of half-pixel steps. */
  predicate HalfSteps(s: real) {
    (2.0 * s).Floor as real == 2.0 * s
  }

  /** What the ball step keeps: a size in (0, 20] on the half-pixel grid, below 20 while still growing. */
  predicate BallOk(b: Ball) {
    HalfSteps(b.size) && 0.0 < b.size <= BallMaxSize && (b.growing ==> b.size < BallMaxSize)
  }

  /** One ball's step: grow by 0.5 until the size reaches 20, then shrink by 0.5; gone once the size is 0 or less. */
  function BallStep(b: Ball): Option<Ball> {
    if b.growing then
      var s := b.size + 0.5;
      Some(b.(size := s, growing := !(s >= BallMaxSize)))
    else
      var s := b.size - 0.5;
      if s <= 0.0 then None else Some(b.(size := s))
  }

  lemma HalfStepsShift(s: real)
    requires HalfSteps(s)
    ensures HalfSteps(s + 0.5) && HalfSteps(s - 0.5)
    ensures s < BallMaxSize ==> s + 0.5 <= BallMaxSize
  {
    var n := (2.0 * s).Floor;
    assert 2.0 * (s + 0.5) == (n + 1) as real;
    assert 2.0 * (s - 0.5) == (n - 1) as real;
  }

  /** A ball that starts in range stays in range for as long as it is kept. */
  lemma BallStepOk(b: Ball)
    requires BallOk(b)
    ensures BallStep(b).Some? ==> BallOk(BallStep(b).value)
    ensures !b.growing && b.size <= 0.5 <==> BallStep(b).None?
  {
    HalfStepsShift(b.size);
  }

  /** The ball loop of `update_projectiles`. */
  function BallsStep(bs: seq<Ball>): (r: seq<Ball>)
    ensures |r| <= |bs|
  {
    if |bs| == 0 then []
    else
      var kept := BallsStep(bs[..|bs| - 1]);
      var o := BallStep(bs[|bs| - 1]);
      if o.Some? then kept + [o.value] else kept
  }

  /** Every retained ball has a size in (0, 20] when every ball had one before. */
  lemma {:induction false} BallsStepOk(bs: seq<Ball>)
    requires forall b :: b in bs ==> BallOk(b)
    ensures forall b :: b in BallsStep(bs) ==> BallOk(b)
  {
    if |bs| > 0 {
      var front := bs[..|bs| - 1];
      assert forall b :: b in front ==> b in bs;
      BallsStepOk(front);
      BallStepOk(bs[|bs| - 1]);
    }
  }

  // ----- update_effects -----

  /** `update_effects`: every timer counts down by one and effects whose timer is spent are dropped. */
  function EffectsStep(fx: seq<Effect>): (r: seq<Effect>)
    ensures |r| <= |fx|
  {
    if |fx| == 0 then []
    else
      var kept := EffectsStep(fx[..|fx| - 1]);
      var e := fx[|fx| - 1].(timer := fx[|fx| - 1].timer - 1);
      if e.timer <= 0 then kept else kept + [e]
  }

  /** An effect remains exactly when it is an old effect counted down and its timer is still at least 1. */
  lemma {:induction false} EffectsStepCountsDown(fx: seq<Effect>, e: Effect)
    ensures e in EffectsStep(fx) <==> e.timer >= 1 && exists k :: 0 <= k < |fx| && e == fx[k].(timer := fx[k].timer - 1)
  {
    if |fx| > 0 {
      var front := fx[..|fx| - 1];
      EffectsStepCountsDown(front, e);
      if e.timer >= 1 && exists k :: 0 <= k < |fx| && e == fx[k].(timer := fx[k].timer - 1) {
        var k :| 0 <= k < |fx| && e == fx[k].(timer := fx[k].timer - 1);
        if k < |fx| - 1 {
          assert e == front[k].(timer := front[k].timer - 1);
        }
      }
    }
  }

  /** Every effect that remains still has time left on its timer. */
  lemma EffectsStepLive(fx: seq<Effect>)
    ensures forall e :: e in EffectsStep(fx) ==> e.timer >= 1
  {
    forall e | e in EffectsStep(fx)
      ensures e.timer >= 1
    {
      EffectsStepCountsDown(fx, e);
    }
  }

  // ----- check_collisions -----

  predicate BulletTouches(b: Bullet, e: Enemy) {
    RAbs(b.x - e.x) < EnemySize as real && RAbs(b.y - e.y) < EnemySize as real
  }

  /** The enemy the inner bullet loop stops at: the first one the bullet touches. */
  function FirstTouched(b: Bullet, es: seq<Enemy>): (r: Option<nat>)
    ensures r.Some? ==> r.value < |es| && BulletTouches(b, es[r.value])
    ensures r.Some? ==> forall j :: 0 <= j < r.value ==> !BulletTouches(b, es[j])
    ensures r.None? ==> forall j :: 0 <= j < |es| ==> !BulletTouches(b, es[j])
  {
    if |es| == 0 then None
    else if BulletTouches(b, es[0]) then Some(0)
    else
      match FirstTouched(b, es[1..])
      case None => None
      case Some(k) => Some(k + 1)
  }

  /** The state the bullet pass threads through: kept bullets, enemies, effects and score. */
  datatype Tally = Tally(bullets: seq<Bullet>, enemies: seq<Enemy>, effects: seq<Effect>, score: int)

  /**
   * One bullet of the bullet pass: it damages the first enemy it touches by
   * one, is used up, and leaves a hit effect; the enemy goes, scoring its
   * points, at health 0 or less.  A bullet that touches nothing stays.
   */
  function Shoot(t: Tally, b: Bullet): Tally {
    match FirstTouched(b, t.enemies)
    case None => t.(bullets := t.bullets + [b])
    case Some(k) =>
      var e := t.enemies[k].(health := t.enemies[k].health - 1.0);
      var fx := t.effects + [Effect(e.x, e.y, HitEffect, HitTimer)];
      if e.health <= 0.0 then
        t.(enemies := Remove(t.enemies, k), effects := fx, score := t.score + Points(e.kind))
      else
        t.(enemies := t.enemies[k := e], effects := fx)
  }

  /** The bullet pass of `check_collisions`, bullet by bullet in list order. */
  function ShootAll(bs: seq<Bullet>, t: Tally): Tally {
    if |bs| == 0 then t else Shoot(ShootAll(bs[..|bs| - 1], t), bs[|bs| - 1])
  }

  /**
   * What a bullet does to the enemy at index `k` that it hits: the bullet is
   * used up, a hit effect of timer 5 is left at the enemy's position, and
   * that enemy alone loses exactly 1 health; at 1 or less it is removed and
   * scores its points.
   */
  predicate HitAt(t: Tally, r: Tally, k: int)
    requires 0 <= k < |t.enemies|
  {
    var e := t.enemies[k];
    r.bullets == t.bullets && r.effects == t.effects + [Effect(e.x, e.y, HitEffect, HitTimer)] &&
    if e.health <= 1.0 then r.enemies == t.enemies[..k] + t.enemies[k + 1..] && r.score == t.score + Points(e.kind)
    else r.enemies == t.enemies[k := e.(health := e.health - 1.0)] && r.score == t.score
  }

  /**
   * A bullet that touches no enemy stays, appended to the kept bullets, and
   * nothing else changes; a bullet that touches some enemy hits the first
   * one it touches, and only that one.
   */
  lemma ShootStep(t: Tally, b: Bullet)
    ensures (forall j :: 0 <= j < |t.enemies| ==> !BulletTouches(b, t.enemies[j])) ==>
      Shoot(t, b) == t.(bullets := t.bullets + [b])
    ensures (exists j :: 0 <= j < |t.enemies| && BulletTouches(b, t.enemies[j])) ==>
      exists k :: 0 <= k < |t.enemies| && BulletTouches(b, t.enemies[k]) &&
        (forall j :: 0 <= j < k ==> !BulletTouches(b, t.enemies[j])) && HitAt(t, Shoot(t, b), k)
  {
    match FirstTouched(b, t.enemies)
    case None =>
    case Some(k) =>
      var e, r := t.enemies[k], Shoot(t, b);
      assert r.bullets == t.bullets && r.effects == t.effects + [Effect(e.x, e.y, HitEffect, HitTimer)];
      if e.health <= 1.0 {
        assert r.enemies == Remove(t.enemies, k) && r.score == t.score + Points(e.kind);
      } else {
        assert r.enemies == t.enemies[k := e.(health := e.health - 1.0)] && r.score == t.score;
      }
      assert HitAt(t, r, k);
  }

  /**
   * The bookkeeping of one bullet: it stays and nothing else changes, or it
   * is used up, leaves one hit effect of timer 5 and removes at most one
   * enemy, which scores 1 or 2.
   */
  lemma ShootStepCounts(t: Tally, b: Bullet)
    ensures var r := Shoot(t, b);
      (r.bullets == t.bullets + [b] && r.effects == t.effects && r.enemies == t.enemies && r.score == t.score) ||
      (r.bullets == t.bullets && r.effects == t.effects + [Effect(r.effects[|t.effects|].x, r.effects[|t.effects|].y, HitEffect, HitTimer)] &&
       |r.enemies| <= |t.enemies| <= |r.enemies| + 1 &&
       |t.enemies| - |r.enemies| <= r.score - t.score <= 2 * (|t.enemies| - |r.enemies|) &&
       ((forall e :: e in t.enemies ==> e.health > 0.0) ==> (forall e :: e in r.enemies ==> e.health > 0.0)))
  {
    ShootStep(t, b);
    match FirstTouched(b, t.enemies)
    case None =>
    case Some(k) =>
      var e := t.enemies[k].(health := t.enemies[k].health - 1.0);
      if e.health > 0.0 {
        assert forall x :: x in Shoot(t, b).enemies ==> x in t.enemies || x == e;
      } else {
        assert forall x :: x in Shoot(t, b).enemies ==> x in t.enemies;
      }
  }

  /**
   * The bullet accounting of `check_collisions`: every bullet either stays,
   * in order, or is used up on exactly one enemy and leaves exactly one hit
   * effect of timer 5 behind.
   */
  lemma {:induction false} ShootAccounting(bs: seq<Bullet>, t: Tally)
    ensures var r := ShootAll(bs, t);
      |t.bullets| <= |r.bullets| && |t.effects| <= |r.effects| &&
      |r.bullets| + (|r.effects| - |t.effects|) == |t.bullets| + |bs| &&
      r.bullets[..|t.bullets|] == t.bullets && r.effects[..|t.effects|] == t.effects &&
      (forall k :: |t.effects| <= k < |r.effects| ==> r.effects[k].kind == HitEffect && r.effects[k].timer == HitTimer) &&
      (forall b :: b in r.bullets ==> b in t.bullets || b in bs)
  {
    if |bs| > 0 {
      var front := bs[..|bs| - 1];
      ShootAccounting(front, t);
      var m := ShootAll(front, t);
      ShootStepCounts(m, bs[|bs| - 1]);
      assert forall x :: x in front ==> x in bs;
      var r := ShootAll(bs, t);
      assert r.bullets[..|m.bullets|] == m.bullets;
      assert r.bullets[..|t.bullets|] == m.bullets[..|t.bullets|];
      assert r.effects[..|m.effects|] == m.effects;
      assert r.effects[..|t.effects|] == m.effects[..|t.effects|];
    }
  }

  /**
   * Each enemy the bullet pass removes scores 1 or 2, so the score never
   * drops; every removal uses up a bullet, so no more enemies go than
   * bullets are used; no enemy is left at health 0 or less.
   */
  lemma {:induction false} ShootScores(bs: seq<Bullet>, t: Tally)
    ensures var r := ShootAll(bs, t);
      |r.enemies| <= |t.enemies| &&
      |t.enemies| - |r.enemies| <= |t.bullets| + |bs| - |r.bullets| &&
      |t.enemies| - |r.enemies| <= r.score - t.score <= 2 * (|t.enemies| - |r.enemies|) &&
      ((forall e :: e in t.enemies ==> e.health > 0.0) ==> (forall e :: e in r.enemies ==> e.health > 0.0))
  {
    if |bs| > 0 {
      ShootScores(bs[..|bs| - 1], t);
      ShootStepCounts(ShootAll(bs[..|bs| - 1], t), bs[|bs| - 1]);
    }
  }

  predicate BallTouches(b: Ball, e: Enemy) {
    RAbs(b.x - e.x) < b.size + EnemySize as real && RAbs(b.y - e.y) < b.size + EnemySize as real
  }

  /** What the ball pass threads through: the enemies and the score. */
  datatype Burn = Burn(enemies: seq<Enemy>, score: int)

  /** One ball against every enemy in turn: a touched enemy loses 0.1 health and goes, scoring, at 0 or less. */
  function Sweep(b: Ball, es: seq<Enemy>, score: int): Burn {
    if |es| == 0 then Burn([], score)
    else
      var r := Sweep(b, es[..|es| - 1], score);
      var e := es[|es| - 1];
      if !BallTouches(b, e) then r.(enemies := r.enemies + [e])
      else
        var hurt := e.(health := e.health - 0.1);
        if hurt.health <= 0.0 then r.(score := r.score + Points(e.kind))
        else r.(enemies := r.enemies + [hurt])
  }

  /** The ball pass of `check_collisions`: the balls in order, each sweeping the enemies still there. */
  function BurnAll(balls: seq<Ball>, es: seq<Enemy>, score: int): Burn {
    if |balls| == 0 then Burn(es, score)
    else
      var r := BurnAll(balls[..|balls| - 1], es, score);
      Sweep(balls[|balls| - 1], r.enemies, r.score)
  }

  /** A sweep scores 1 or 2 for every enemy it removes and leaves no enemy at health 0 or less. */
  lemma {:induction false} SweepAccounting(b: Ball, es: seq<Enemy>, score: int)
    ensures var r := Sweep(b, es, score);
      |r.enemies| <= |es| &&
      |es| - |r.enemies| <= r.score - score <= 2 * (|es| - |r.enemies|) &&
      ((forall e :: e in es ==> e.health > 0.0) ==> (forall e :: e in r.enemies ==> e.health > 0.0))
  {
    if |es| > 0 {
      var front := es[..|es| - 1];
      SweepAccounting(b, front, score);
      assert forall x :: x in front ==> x in es;
    }
  }

  lemma {:induction false} BurnAccounting(balls: seq<Ball>, es: seq<Enemy>, score: int)
    ensures var r := BurnAll(balls, es, score);
      |r.enemies| <= |es| &&
      |es| - |r.enemies| <= r.score - score <= 2 * (|es| - |r.enemies|) &&
      ((forall e :: e in es ==> e.health > 0.0) ==> (forall e :: e in r.enemies ==> e.health > 0.0))
  {
    if |balls| > 0 {
      var front := balls[..|balls| - 1];
      BurnAccounting(front, es, score);
      var m := BurnAll(front, es, score);
      SweepAccounting(balls[|balls| - 1], m.enemies, m.score);
    }
  }

  /** Whether an enemy overlaps the player: centres closer than the mean of the two sizes on both axes. */
  predicate Contact(p: Player, e: Enemy) {
    var reach := (PlayerSize + EnemySize) as real / 2.0;
    RAbs(p.x - e.x) < reach && RAbs(p.y - e.y) < reach
  }

  /** The number of enemies touching the player. */
  function Contacts(p: Player, es: seq<Enemy>): nat {
    if |es| == 0 then 0
    else Contacts(p, es[..|es| - 1]) + (if Contact(p, es[|es| - 1]) then 1 else 0)
  }

  /** What the contact pass threads through: the player's health, the game-over flag and the effects. */
  datatype Harm = Harm(health: int, gameOver: bool, effects: seq<Effect>)

  /** The contact pass: each touching enemy costs 10 health and leaves a damage effect; game over once health is 0 or less. */
  function HarmAll(p: Player, es: seq<Enemy>, h: Harm): Harm {
    if |es| == 0 then h
    else
      var r := HarmAll(p, es[..|es| - 1], h);
      if Contact(p, es[|es| - 1]) then
        var health := r.health - ContactDamage;
        Harm(health, r.gameOver || health <= 0, r.effects + [Effect(p.x, p.y, DamageEffect, DamageTimer)])
      else r
  }

  function DamageEffects(p: Player, n: nat): seq<Effect> {
    seq(n, _ => Effect(p.x, p.y, DamageEffect, DamageTimer))
  }

  /** The contact pass in closed form: 10 health and one damage effect per touching enemy. */
  lemma {:induction false} HarmCounts(p: Player, es: seq<Enemy>, h: Harm)
    ensures var n := Contacts(p, es);
      HarmAll(p, es, h) ==
        Harm(h.health - ContactDamage * n,
             h.gameOver || (n > 0 && h.health - ContactDamage * n <= 0),
             h.effects + DamageEffects(p, n))
  {
    if |es| > 0 {
      var front := es[..|es| - 1];
      HarmCounts(p, front, h);
      var n := Contacts(p, front);
      if Contact(p, es[|es| - 1]) {
        assert DamageEffects(p, n) + [Effect(p.x, p.y, DamageEffect, DamageTimer)] == DamageEffects(p, n + 1);
      }
    }
  }

  /** `check_collisions`: the bullet pass, the ball pass, then the contact pass unless the shield or power mode is on. */
  function CollisionStep(w: World): World {
    var t := ShootAll(w.player.bullets, Tally([], w.enemies, w.effects, w.player.score));
    var burn := BurnAll(w.player.balls, t.enemies, t.score);
    var p := w.player.(bullets := t.bullets, score := burn.score);
    if !p.shieldActive && !p.powerMode then
      var h := HarmAll(p, burn.enemies, Harm(p.health, w.gameOver, t.effects));
      World(p.(health := h.health), burn.enemies, h.effects, h.gameOver, w.spawnTimer)
    else
      World(p, burn.enemies, t.effects, w.gameOver, w.spawnTimer)
  }

  // ----- update -----

  predicate Restart(i: Pad) {
    i.aPressed || i.spacePressed
  }

  /** The player phase of `update`. */
  function PlayerPhase(w: World, i: Pad, m: Maths): World {
    w.(player := PlayerStep(w.player, i, m))
  }

  /** The enemy phase, chasing the player's new position. */
  function EnemyPhase(w: World, d: EnemyDraw, m: Maths): World {
    w.(enemies := EnemiesStep(w.enemies, w.spawnTimer, d, w.player.x, w.player.y, m),
       spawnTimer := NextSpawnTimer(w.spawnTimer))
  }

  function ProjectilePhase(w: World, m: Maths): World {
    w.(player := w.player.(bullets := BulletsStep(w.player.bullets, m), balls := BallsStep(w.player.balls)))
  }

  function EffectPhase(w: World): World {
    w.(effects := EffectsStep(w.effects))
  }

  /** One `update`: after game over only A/Space does anything, and it resets the game. */
  function Frame(w: World, i: Pad, m: Maths, d: EnemyDraw): World {
    if w.gameOver then
      if Restart(i) then NewWorld else w
    else
      CollisionStep(EffectPhase(ProjectilePhase(EnemyPhase(PlayerPhase(w, i, m), d, m), m)))
  }

  predicate PlayerOk(p: Player) {
    0.0 <= p.x <= MaxX && 0.0 <= p.y <= MaxY &&
    0 <= p.dashCooldown <= DashCooldown && PowerInv(p) && p.score >= 0 &&
    (forall b :: b in p.bullets ==> OnScreen(b)) &&
    (forall b :: b in p.balls ==> BallOk(b))
  }

  /**
   * What holds between frames: the player on the screen with its timers in
   * range, every bullet on the screen, every ball in range, every enemy
   * alive, every effect still running, the spawn timer in 0..29, and game
   * over exactly when the health is spent.
   */
  predicate WorldOk(w: World) {
    PlayerOk(w.player) &&
    (forall e :: e in w.enemies ==> e.health > 0.0) &&
    (forall e :: e in w.effects ==> e.timer >= 1) &&
    0 <= w.spawnTimer < SpawnPeriod &&
    (w.gameOver <==> w.player.health <= 0)
  }

  lemma NewWorldOk()
    ensures WorldOk(NewWorld)
  {
  }

  // ----- whole frames -----

  lemma PlayerPhaseOk(w: World, i: Pad, m: Maths)
    requires WorldOk(w)
    ensures WorldOk(PlayerPhase(w, i, m))
  {
    DashCooldownRule(w.player, i, m);
    PowerTimerRule(w.player, i, m);
    ShotsAppended(w.player, i, m);
    var r := PlayerStep(w.player, i, m);
    assert (2.0 * BallStartSize).Floor == 8;
    assert forall b :: b in r.bullets ==> b in w.player.bullets || b == Bullet(r.x + 4.0, r.y + 4.0, FireAngle(i, m), 4.0);
    assert forall b :: b in r.balls ==> b in w.player.balls || b == Ball(r.x + 4.0, r.y + 4.0, 4.0, true);
  }

  lemma EnemyPhaseOk(w: World, d: EnemyDraw, m: Maths)
    requires WorldOk(w)
    ensures WorldOk(EnemyPhase(w, d, m))
  {
    SpawnTimerCycles(w.spawnTimer, d);
    var grown := w.enemies + OptionSeq(Arrival(w.spawnTimer, d));
    assert forall e :: e in grown ==> e.health > 0.0;
    var es := EnemiesStep(w.enemies, w.spawnTimer, d, w.player.x, w.player.y, m);
    forall e | e in es
      ensures e.health > 0.0
    {
      var k :| 0 <= k < |es| && es[k] == e;
      assert e.health == grown[k].health;
    }
  }

  lemma ProjectilePhaseOk(w: World, m: Maths)
    requires WorldOk(w)
    ensures WorldOk(ProjectilePhase(w, m)) && WorldOk(EffectPhase(ProjectilePhase(w, m)))
  {
    BallsStepOk(w.player.balls);
    forall b | b in BulletsStep(w.player.bullets, m)
      ensures OnScreen(b)
    {
      BulletsStepKeepsOnScreen(w.player.bullets, m, b);
    }
    EffectsStepLive(w.effects);
  }

  lemma CollisionStepOk(w: World)
    requires WorldOk(w) && !w.gameOver
    ensures WorldOk(CollisionStep(w))
    ensures CollisionStep(w).player.score >= w.player.score
  {
    var t0 := Tally([], w.enemies, w.effects, w.player.score);
    var t := ShootAll(w.player.bullets, t0);
    ShootAccounting(w.player.bullets, t0);
    ShootScores(w.player.bullets, t0);
    assert forall e :: e in t.effects ==> e.timer >= 1 by {
      forall e | e in t.effects
        ensures e.timer >= 1
      {
        var k :| 0 <= k < |t.effects| && t.effects[k] == e;
        if k < |w.effects| {
          assert e == t.effects[..|w.effects|][k];
        }
      }
    }
    var burn := BurnAll(w.player.balls, t.enemies, t.score);
    BurnAccounting(w.player.balls, t.enemies, t.score);
    var p := w.player.(bullets := t.bullets, score := burn.score);
    if !p.shieldActive && !p.powerMode {
      var h0 := Harm(p.health, w.gameOver, t.effects);
      HarmCounts(p, burn.enemies, h0);
      var n := Contacts(p, burn.enemies);
      assert forall e :: e in DamageEffects(p, n) ==> e.timer >= 1;
      assert forall e :: e in HarmAll(p, burn.enemies, h0).effects ==> e in t.effects || e in DamageEffects(p, n);
    }
  }

  /** Whatever the inputs, a frame keeps every part of the game's invariant. */
  lemma FrameKeepsWorldOk(w: World, i: Pad, m: Maths, d: EnemyDraw)
    requires WorldOk(w)
    ensures WorldOk(Frame(w, i, m, d))
  {
    if !w.gameOver {
      var w1 := PlayerPhase(w, i, m);
      PlayerPhaseOk(w, i, m);
      var w2 := EnemyPhase(w1, d, m);
      EnemyPhaseOk(w1, d, m);
      ProjectilePhaseOk(w2, m);
      CollisionStepOk(EffectPhase(ProjectilePhase(w2, m)));
    }
  }

  /** While the game is over, a frame changes nothing unless A/Space resets the game. */
  lemma GameOverWaits(w: World, i: Pad, m: Maths, d: EnemyDraw)
    requires w.gameOver
    ensures Frame(w, i, m, d) == if Restart(i) then NewWorld else w
  {
  }

  /** A running frame never lowers the score. */
  lemma ScoreNeverDecreases(w: World, i: Pad, m: Maths, d: EnemyDraw)
    requires !w.gameOver
    ensures Frame(w, i, m, d).player.score >= w.player.score
  {
    var w4 := EffectPhase(ProjectilePhase(EnemyPhase(PlayerPhase(w, i, m), d, m), m));
    var t0 := Tally([], w4.enemies, w4.effects, w4.player.score);
    ShootScores(w4.player.bullets, t0);
    var t := ShootAll(w4.player.bullets, t0);
    BurnAccounting(w4.player.balls, t.enemies, t.score);
  }

  /** A shield or power mode, as they stand after the player phase, keeps the health and the game running. */
  lemma ShieldBlocksDamage(w: World, i: Pad, m: Maths, d: EnemyDraw)
    requires !w.gameOver
    requires i.shieldHeld || PlayerStep(w.player, i, m).powerMode
    ensures Frame(w, i, m, d).player.health == w.player.health && !Frame(w, i, m, d).gameOver
  {
  }

  /** The contact count depends only on where the player stands. */
  lemma {:induction false} ContactsByPosition(p: Player, q: Player, es: seq<Enemy>)
    requires p.x == q.x && p.y == q.y
    ensures Contacts(p, es) == Contacts(q, es)
  {
    if |es| > 0 {
      ContactsByPosition(p, q, es[..|es| - 1]);
    }
  }

  /**
   * Without shield or power mode, the player loses 10 health for every enemy
   * touching it at the end of the frame, and the game is over exactly when
   * the health is spent.
   */
  lemma ContactDamageRule(w: World, i: Pad, m: Maths, d: EnemyDraw)
    requires WorldOk(w) && !w.gameOver
    requires !i.shieldHeld && !PlayerStep(w.player, i, m).powerMode
    ensures var r := Frame(w, i, m, d);
      r.player.health == w.player.health - ContactDamage * Contacts(r.player, r.enemies) &&
      (r.gameOver <==> r.player.health <= 0)
  {
    var w4 := EffectPhase(ProjectilePhase(EnemyPhase(PlayerPhase(w, i, m), d, m), m));
    var t := ShootAll(w4.player.bullets, Tally([], w4.enemies, w4.effects, w4.player.score));
    var burn := BurnAll(w4.player.balls, t.enemies, t.score);
    var p := w4.player.(bullets := t.bullets, score := burn.score);
    HarmCounts(p, burn.enemies, Harm(p.health, w4.gameOver, t.effects));
    var r := Frame(w, i, m, d);
    ContactsByPosition(p, r.player, burn.enemies);
  }
}
