/**
 * The `Game` class of the action game and the loops its update methods run.
 * Each loop walks the list the way the source does, updating the live list
 * in place and removing an element at the position it was visited; each is
 * proved against the pure step of the ActionRules module.
 */
module ActionGame {
  import opened Wrappers
  import opened Numeric
  import opened ActionRules

  /** Writing the first unvisited element of `kept + rest`, and removing it there. */
  lemma Splice<T>(kept: seq<T>, rest: seq<T>, x: T)
    requires |rest| > 0
    ensures (kept + rest)[|kept|] == rest[0]
    ensures (kept + rest)[|kept| := x] == kept + [x] + rest[1..]
    ensures Remove(kept + rest, |kept|) == kept + rest[1..]
    ensures kept + rest == kept + [rest[0]] + rest[1..]
  {
    assert (kept + rest)[|kept| := x] == kept + [x] + rest[1..];
    assert Remove(kept + rest, |kept|) == kept + rest[1..];
  }

  /**
   * One visit of the bullet loop: `live` is the moved prefix followed by the
   * unvisited rest, and the bullet at `at` flies, then is removed there if it
   * left the screen.
   */
  method FlyOne(ghost bs: seq<Bullet>, m: Maths, ghost i: int, live: seq<Bullet>, at: int)
    returns (live': seq<Bullet>, at': int)
    requires 0 <= i < |bs| && live == BulletsStep(bs[..i], m) + bs[i..] && at == |BulletsStep(bs[..i], m)|
    ensures live' == BulletsStep(bs[..i + 1], m) + bs[i + 1..] && at' == |BulletsStep(bs[..i + 1], m)|
  {
    ghost var kept := BulletsStep(bs[..i], m);
    assert bs[..i + 1][..i] == bs[..i];
    assert bs[i..][1..] == bs[i + 1..];
    Splice(kept, bs[i..], Flown(bs[i], m));
    var b := Flown(live[at], m);
    if !OnScreen(b) {
      live', at' := Remove(live, at), at;
    } else {
      live', at' := live[at := b], at + 1;
    }
  }

  /** The bullet loop of `update_projectiles`: move each bullet in the live list, remove it there once off the screen. */
  method FlyBullets(bs: seq<Bullet>, m: Maths) returns (live: seq<Bullet>)
    ensures live == BulletsStep(bs, m)
  {
    live := bs;
    var i, at := 0, 0;
    assert bs[..0] == [] && bs[0..] == bs;
    while i < |bs|
      invariant 0 <= i <= |bs|
      invariant live == BulletsStep(bs[..i], m) + bs[i..] && at == |BulletsStep(bs[..i], m)|
    {
      live, at := FlyOne(bs, m, i, live, at);
      i := i + 1;
    }
    assert bs[..i] == bs && bs[i..] == [];
  }

  /**
   * One visit of the ball loop: the ball at `at` grows by 0.5 until it
   * reaches 20, then shrinks by 0.5, and is removed there once spent.
   */
  method AgeOne(ghost bs: seq<Ball>, ghost i: int, live: seq<Ball>, at: int) returns (live': seq<Ball>, at': int)
    requires 0 <= i < |bs| && live == BallsStep(bs[..i]) + bs[i..] && at == |BallsStep(bs[..i])|
    ensures live' == BallsStep(bs[..i + 1]) + bs[i + 1..] && at' == |BallsStep(bs[..i + 1])|
  {
    ghost var kept := BallsStep(bs[..i]);
    assert bs[..i + 1][..i] == bs[..i];
    assert bs[i..][1..] == bs[i + 1..];
    var ball := live[at];
    var spent := false;
    if ball.growing {
      ball := ball.(size := ball.size + 0.5);
      if ball.size >= BallMaxSize {
        ball := ball.(growing := false);
      }
    } else {
      ball := ball.(size := ball.size - 0.5);
      spent := ball.size <= 0.0;
    }
    Splice(kept, bs[i..], ball);
    assert BallStep(bs[i]) == if spent then None else Some(ball);
    if spent {
      live', at' := Remove(live, at), at;
    } else {
      live', at' := live[at := ball], at + 1;
    }
  }

  /** The ball loop of `update_projectiles`: grow, then shrink, each ball in place; a spent ball is removed. */
  method AgeBalls(bs: seq<Ball>) returns (live: seq<Ball>)
    ensures live == BallsStep(bs)
  {
    live := bs;
    var i, at := 0, 0;
    assert bs[..0] == [] && bs[0..] == bs;
    while i < |bs|
      invariant 0 <= i <= |bs|
      invariant live == BallsStep(bs[..i]) + bs[i..] && at == |BallsStep(bs[..i])|
    {
      live, at := AgeOne(bs, i, live, at);
      i := i + 1;
    }
    assert bs[..i] == bs && bs[i..] == [];
  }

  /** One visit of the effect loop: the timer at `at` counts down, and the effect is removed there once spent. */
  method CountDownOne(ghost fx: seq<Effect>, ghost i: int, live: seq<Effect>, at: int) returns (live': seq<Effect>, at': int)
    requires 0 <= i < |fx| && live == EffectsStep(fx[..i]) + fx[i..] && at == |EffectsStep(fx[..i])|
    ensures live' == EffectsStep(fx[..i + 1]) + fx[i + 1..] && at' == |EffectsStep(fx[..i + 1])|
  {
    ghost var kept := EffectsStep(fx[..i]);
    assert fx[..i + 1][..i] == fx[..i];
    assert fx[i..][1..] == fx[i + 1..];
    var e := live[at];
    e := e.(timer := e.timer - 1);
    Splice(kept, fx[i..], e);
    if e.timer <= 0 {
      live', at' := Remove(live, at), at;
    } else {
      live', at' := live[at := e], at + 1;
    }
  }

  /** `update_effects`: count each timer down in place and remove the effects whose timer is spent. */
  method CountDownEffects(fx: seq<Effect>) returns (live: seq<Effect>)
    ensures live == EffectsStep(fx)
  {
    live := fx;
    var i, at := 0, 0;
    assert fx[..0] == [] && fx[0..] == fx;
    while i < |fx|
      invariant 0 <= i <= |fx|
      invariant live == EffectsStep(fx[..i]) + fx[i..] && at == |EffectsStep(fx[..i])|
    {
      live, at := CountDownOne(fx, i, live, at);
      i := i + 1;
    }
    assert fx[..i] == fx && fx[i..] == [];
  }

  /** The movement loop of `update_enemies`: every enemy takes its chase step in place. */
  method ChaseAll(es: seq<Enemy>, px: real, py: real, m: Maths) returns (live: seq<Enemy>)
    ensures live == Chased(es, px, py, m)
  {
    live := es;
    var k := 0;
    while k < |es|
      invariant 0 <= k <= |es| && |live| == |es|
      invariant forall j :: 0 <= j < k ==> live[j] == Chase(es[j], px, py, m)
      invariant forall j :: k <= j < |es| ==> live[j] == es[j]
    {
      var e := live[k];
      assert e == es[k];
      var dx, dy := px - e.x, py - e.y;
      var dist := m.Hypot(dx, dy);
      if dist > 0.0 {
        live := live[k := e.(x := e.x + dx / dist * Speed(e.kind) as real, y := e.y + dy / dist * Speed(e.kind) as real)];
      }
      assert live[k] == Chase(es[k], px, py, m);
      k := k + 1;
    }
  }

  /** The inner bullet loop of `check_collisions`: the first enemy the bullet touches, where the scan breaks off. */
  method FindTarget(bullet: Bullet, enemies: seq<Enemy>) returns (hit: Option<nat>)
    ensures hit == FirstTouched(bullet, enemies)
  {
    hit := None;
    var j := 0;
    while j < |enemies|
      invariant 0 <= j <= |enemies|
      invariant forall l :: 0 <= l < j ==> !BulletTouches(bullet, enemies[l])
    {
      if RAbs(bullet.x - enemies[j].x) < EnemySize as real && RAbs(bullet.y - enemies[j].y) < EnemySize as real {
        hit := Some(j);
        return;
      }
      j := j + 1;
    }
  }

  /**
   * One visit of the bullet pass: bullet `i` of the copied list scans the
   * enemies and stops at the first one it touches; it damages that enemy,
   * is dropped from the live list, removes the enemy and scores at health 0
   * or less, and records a hit effect.
   */
  method ShootOne(bs: seq<Bullet>, ghost t0: Tally, i: int, live: seq<Bullet>, at: int, enemies: seq<Enemy>, effects: seq<Effect>, total: int)
    returns (live': seq<Bullet>, at': int, enemies': seq<Enemy>, effects': seq<Effect>, total': int)
    requires 0 <= i < |bs|
    requires var t := ShootAll(bs[..i], t0);
      live == t.bullets + bs[i..] && at == |t.bullets| && enemies == t.enemies && effects == t.effects && total == t.score
    ensures var t := ShootAll(bs[..i + 1], t0);
      live' == t.bullets + bs[i + 1..] && at' == |t.bullets| && enemies' == t.enemies && effects' == t.effects && total' == t.score
  {
    assert bs[..i + 1][..i] == bs[..i];
    assert bs[i..][1..] == bs[i + 1..];
    ghost var t := ShootAll(bs[..i], t0);
    var bullet := bs[i];
    Splice(t.bullets, bs[i..], bullet);
    live', at', enemies', effects', total' := live, at, enemies, effects, total;
    var hit := FindTarget(bullet, enemies);
    if hit.Some? {
      var k := hit.value;
      var enemy := enemies[k].(health := enemies[k].health - 1.0);
      enemies' := enemies[k := enemy];
      live' := Remove(live, at);
      if enemy.health <= 0.0 {
        assert Remove(enemies', k) == Remove(t.enemies, k);
        enemies' := Remove(enemies', k);
        total' := total + Points(enemy.kind);
      }
      effects' := effects + [Effect(enemy.x, enemy.y, HitEffect, HitTimer)];
    } else {
      at' := at + 1;
    }
  }

  /** The bullet pass of `check_collisions`: every bullet of a copy of the list, in order. */
  method ShootEnemies(bs: seq<Bullet>, es: seq<Enemy>, fx: seq<Effect>, score: int)
    returns (live: seq<Bullet>, enemies: seq<Enemy>, effects: seq<Effect>, total: int)
    ensures Tally(live, enemies, effects, total) == ShootAll(bs, Tally([], es, fx, score))
  {
    ghost var t0 := Tally([], es, fx, score);
    live, enemies, effects, total := bs, es, fx, score;
    var i, at := 0, 0;
    assert bs[..0] == [] && bs[0..] == bs;
    while i < |bs|
      invariant 0 <= i <= |bs|
      invariant var t := ShootAll(bs[..i], t0);
        live == t.bullets + bs[i..] && at == |t.bullets| &&
        enemies == t.enemies && effects == t.effects && total == t.score
    {
      live, at, enemies, effects, total := ShootOne(bs, t0, i, live, at, enemies, effects, total);
      i := i + 1;
    }
    assert bs[..i] == bs && bs[i..] == [];
  }

  /** One ball's sweep over a copy of the enemy list, updating and removing in the live list. */
  method SweepEnemies(ball: Ball, es: seq<Enemy>, score: int) returns (live: seq<Enemy>, total: int)
    ensures Burn(live, total) == Sweep(ball, es, score)
  {
    live, total := es, score;
    var j, at := 0, 0;
    while j < |es|
      invariant 0 <= j <= |es|
      invariant var r := Sweep(ball, es[..j], score);
        live == r.enemies + es[j..] && at == |r.enemies| && total == r.score
    {
      assert es[..j + 1][..j] == es[..j];
      assert es[j..][1..] == es[j + 1..];
      ghost var kept := Sweep(ball, es[..j], score).enemies;
      var enemy := live[at];
      assert enemy == es[j] by { Splice(kept, es[j..], enemy); }
      if RAbs(ball.x - enemy.x) < ball.size + EnemySize as real && RAbs(ball.y - enemy.y) < ball.size + EnemySize as real {
        enemy := enemy.(health := enemy.health - 0.1);
        Splice(kept, es[j..], enemy);
        if enemy.health <= 0.0 {
          live := Remove(live, at);
          total := total + Points(enemy.kind);
        } else {
          live := live[at := enemy];
          at := at + 1;
        }
      } else {
        Splice(kept, es[j..], enemy);
        at := at + 1;
      }
      j := j + 1;
    }
    assert es[..j] == es;
  }

  /** The ball pass of `check_collisions`: every ball sweeps the enemies still there. */
  method BurnEnemies(balls: seq<Ball>, es: seq<Enemy>, score: int) returns (enemies: seq<Enemy>, total: int)
    ensures Burn(enemies, total) == BurnAll(balls, es, score)
  {
    enemies, total := es, score;
    var i := 0;
    while i < |balls|
      invariant 0 <= i <= |balls|
      invariant Burn(enemies, total) == BurnAll(balls[..i], es, score)
    {
      assert balls[..i + 1][..i] == balls[..i];
      enemies, total := SweepEnemies(balls[i], enemies, total);
      i := i + 1;
    }
    assert balls[..i] == balls;
  }

  /** The contact pass of `check_collisions`: 10 health and a damage effect per enemy touching the player. */
  method HarmPlayer(p: Player, es: seq<Enemy>, gameOver: bool, fx: seq<Effect>)
    returns (health: int, over: bool, effects: seq<Effect>)
    ensures Harm(health, over, effects) == HarmAll(p, es, Harm(p.health, gameOver, fx))
  {
    health, over, effects := p.health, gameOver, fx;
    var k := 0;
    while k < |es|
      invariant 0 <= k <= |es|
      invariant Harm(health, over, effects) == HarmAll(p, es[..k], Harm(p.health, gameOver, fx))
    {
      assert es[..k + 1][..k] == es[..k];
      var reach := (PlayerSize + EnemySize) as real / 2.0;
      if RAbs(p.x - es[k].x) < reach && RAbs(p.y - es[k].y) < reach {
        health := health - ContactDamage;
        if health <= 0 {
          over := true;
        }
        effects := effects + [Effect(p.x, p.y, DamageEffect, DamageTimer)];
      }
      k := k + 1;
    }
    assert es[..k] == es;
  }

  /** The keyboard override of the left stick, the walk along it and the clamp to the screen. */
  method MovePlayer(p: Player, i: Pad, m: Maths) returns (q: Player)
    ensures q == Moved(p, i, m)
  {
    var lx, ly := i.leftX, i.leftY;
    if i.left {
      lx := -32767;
    } else if i.right {
      lx := 32767;
    }
    if i.up {
      ly := -32767;
    } else if i.down {
      ly := 32767;
    }
    q := p;
    var speed := if q.dashActive then DashSpeed else WalkSpeed;
    if Abs(lx) > DeadZone || Abs(ly) > DeadZone {
      var angle := m.atan2(ly as real, lx as real);
      var step := m.Stride(angle, speed as real);
      q := q.(x := q.x + step.0, y := q.y + step.1);
    }
    q := q.(x := MaxMin(0.0, MaxX, q.x), y := MaxMin(0.0, MaxY, q.y));
  }

  /** The dash cooldown and the power-mode timer of `update_player`. */
  method TickPlayer(p: Player) returns (q: Player)
    ensures q == Ticked(p)
  {
    q := p;
    if q.dashCooldown > 0 {
      q := q.(dashCooldown := q.dashCooldown - 1);
    }
    if q.powerMode {
      q := q.(powerTimer := q.powerTimer - 1);
      if q.powerTimer <= 0 {
        q := q.(powerMode := false);
      }
    }
  }

  /** The buttons of `update_player`: fire, dash, shield, power mode, ball. */
  method PressButtons(p: Player, i: Pad, m: Maths) returns (q: Player)
    ensures q == Pressed(p, i, m)
  {
    var bullets, balls := p.bullets, p.balls;
    var dash, cooldown := p.dashActive, p.dashCooldown;
    var power, timer := p.powerMode, p.powerTimer;
    if i.aPressed || i.jPressed {
      var angle := if OutsideDeadZone(i.rightX, i.rightY) then m.atan2(i.rightY as real, i.rightX as real) else 0.0;
      bullets := bullets + [Bullet(p.x + (PlayerSize / 2) as real, p.y + (PlayerSize / 2) as real, angle, BulletSpeed as real)];
    }
    if (i.bPressed || i.kPressed) && cooldown <= 0 {
      dash, cooldown := true, DashCooldown;
    }
    if !i.dashHeld {
      dash := false;
    }
    if i.powerPressed {
      power, timer := true, PowerDuration;
    }
    if i.triggerRight > DeadZone || i.eHeld {
      balls := balls + [Ball(p.x + (PlayerSize / 2) as real, p.y + (PlayerSize / 2) as real, BallStartSize, true)];
    }
    q := p.(bullets := bullets, dashActive := dash, dashCooldown := cooldown, shieldActive := i.shieldHeld,
      powerMode := power, powerTimer := timer, balls := balls);
  }

  /** The passes of `check_collisions` on the game's attributes: bullets, then balls, then contacts unless the shield or power mode is on. */
  method Collide(w: World) returns (r: World)
    ensures r == CollisionStep(w)
  {
    var bullets, es, fx, score := ShootEnemies(w.player.bullets, w.enemies, w.effects, w.player.score);
    es, score := BurnEnemies(w.player.balls, es, score);
    var p := w.player.(bullets := bullets, score := score);
    r := World(p, es, fx, w.gameOver, w.spawnTimer);
    if !p.shieldActive && !p.powerMode {
      var health, over, fx' := HarmPlayer(p, es, w.gameOver, fx);
      r := World(p.(health := health), es, fx', over, w.spawnTimer);
    }
  }

  /**
   * The game.  The player's attributes are held as one `Player` value: the
   * source's `Player` object belongs to the game alone and `reset_game`
   * replaces it whole.
   */
  class Game {
    var player: Player
    var enemies: seq<Enemy>
    var effects: seq<Effect>
    var gameOver: bool
    var spawnTimer: int

    ghost function State(): World
      reads this
    {
      World(player, enemies, effects, gameOver, spawnTimer)
    }

    ghost predicate Valid()
      reads this
    {
      WorldOk(State())
    }

    /** `__init__`, which calls `reset_game`. */
    constructor ()
      ensures Valid() && State() == NewWorld
    {
      player := NewPlayer;
      enemies, effects := [], [];
      gameOver, spawnTimer := false, 0;
      NewWorldOk();
    }

    /** `reset_game`: a new player at (80, 60) with health 100 and score 0, and an empty field. */
    method ResetGame()
      modifies this
      ensures State() == NewWorld
      ensures player.x == 80.0 && player.y == 60.0 && player.health == 100 && player.score == 0
      ensures player.bullets == [] && player.balls == [] && enemies == [] && effects == []
      ensures !player.dashActive && !player.shieldActive && !player.powerMode
      ensures !gameOver && spawnTimer == 0
    {
      player := NewPlayer;
      enemies, effects := [], [];
      gameOver, spawnTimer := false, 0;
    }

    /**
     * One `update`.  Quitting is not modelled; while the game is over only
     * A/Space does anything, and it resets the game.
     */
    method Update(i: Pad, m: Maths, d: EnemyDraw)
      requires Valid()
      modifies this
      ensures Valid()
      ensures State() == Frame(old(State()), i, m, d)
    {
      FrameKeepsWorldOk(State(), i, m, d);
      if gameOver {
        if i.aPressed || i.spacePressed {
          ResetGame();
        }
        return;
      }
      ghost var w0 := State();
      UpdatePlayer(i, m);
      ghost var w1 := State();
      assert w1 == PlayerPhase(w0, i, m);
      UpdateEnemies(d, m);
      ghost var w2 := State();
      assert w2 == EnemyPhase(w1, d, m);
      UpdateProjectiles(m);
      ghost var w3 := State();
      assert w3 == ProjectilePhase(w2, m);
      UpdateEffects();
      assert State() == EffectPhase(w3);
      CheckCollisions();
    }

    /** `update_player`: movement, timers, then buttons, on the player's attributes. */
    method UpdatePlayer(i: Pad, m: Maths)
      modifies this`player
      ensures player == PlayerStep(old(player), i, m)
    {
      var p := MovePlayer(player, i, m);
      p := TickPlayer(p);
      p := PressButtons(p, i, m);
      player := p;
    }

    /** `update_enemies`: the spawn timer, the random arrival at either edge, then the chase. */
    method UpdateEnemies(d: EnemyDraw, m: Maths)
      modifies this`enemies, this`spawnTimer
      ensures spawnTimer == NextSpawnTimer(old(spawnTimer))
      ensures enemies == EnemiesStep(old(enemies), old(spawnTimer), d, player.x, player.y, m)
    {
      var grown := enemies;
      spawnTimer := spawnTimer + 1;
      if spawnTimer >= SpawnPeriod {
        spawnTimer := 0;
        if d.appear < 0.3 {
          var kind := if d.elite < 0.2 then Elite else Normal;
          var x := if d.rightSide then Width else 0;
          grown := grown + [NewEnemy(x, d.y, kind)];
        }
      }
      assert grown == old(enemies) + OptionSeq(Arrival(old(spawnTimer), d));
      enemies := ChaseAll(grown, player.x, player.y, m);
    }

    /** `update_projectiles`: the bullet loop, then the ball loop. */
    method UpdateProjectiles(m: Maths)
      modifies this`player
      ensures player == old(player).(bullets := BulletsStep(old(player).bullets, m), balls := BallsStep(old(player).balls))
    {
      var bullets := FlyBullets(player.bullets, m);
      var balls := AgeBalls(player.balls);
      player := player.(bullets := bullets, balls := balls);
    }

    /** `update_effects`. */
    method UpdateEffects()
      modifies this`effects
      ensures effects == EffectsStep(old(effects))
    {
      effects := CountDownEffects(effects);
    }

    /** `check_collisions`: bullets, then balls, then contacts unless the shield or power mode is on. */
    method CheckCollisions()
      modifies this`player, this`enemies, this`effects, this`gameOver
      ensures State() == CollisionStep(old(State()))
    {
      var w := Collide(World(player, enemies, effects, gameOver, spawnTimer));
      player, enemies, effects, gameOver := w.player, w.enemies, w.effects, w.gameOver;
    }
  }
}
