/** The game panel: the craft, the three entity lists and the scoring fields, updated in place
    by the timer and the mouse. Each method is proved to take the panel's state as a value to
    the state the functions of Rules give. */
module Panel {
  import opened Geometry
  import opened Sweep
  import opened Players
  import opened Rules
  import Obstacles
  import Enemies
  import PowerUps

  // The three entity classes share no common type, so the view function of a list and the
  // removal lemma below are written once per class; the three copies differ only in the types.

  /** The states of a list of obstacles, in order. */
  function ObstacleViews(s: seq<Obstacles.Obstacle>): (r: seq<Obstacles.ObstacleView>)
    reads s
    ensures |r| == |s| && forall k :: 0 <= k < |s| ==> r[k] == s[k].View()
  {
    seq(|s|, k requires 0 <= k < |s| reads s => s[k].View())
  }

  /** The states of a list of enemies, in order. */
  function EnemyViews(s: seq<Enemies.Enemy>): (r: seq<Enemies.EnemyView>)
    reads s
    ensures |r| == |s| && forall k :: 0 <= k < |s| ==> r[k] == s[k].View()
  {
    seq(|s|, k requires 0 <= k < |s| reads s => s[k].View())
  }

  /** The states of a list of pickups, in order. */
  function PowerUpViews(s: seq<PowerUps.PowerUp>): (r: seq<PowerUps.PowerUpView>)
    reads s
    ensures |r| == |s| && forall k :: 0 <= k < |s| ==> r[k] == s[k].View()
  {
    seq(|s|, k requires 0 <= k < |s| reads s => s[k].View())
  }

  /** Removing an obstacle from the list removes its state from the views. */
  lemma ObstacleViewsRemove(s: seq<Obstacles.Obstacle>, i: int)
    requires 0 <= i < |s|
    ensures ObstacleViews(s[..i] + s[i + 1..]) == ObstacleViews(s)[..i] + ObstacleViews(s)[i + 1..]
  {
    var t := s[..i] + s[i + 1..];
    forall k | 0 <= k < |t|
      ensures ObstacleViews(t)[k] == (ObstacleViews(s)[..i] + ObstacleViews(s)[i + 1..])[k]
    {
      if k < i {
        assert t[k] == s[k];
      } else {
        assert t[k] == s[k + 1];
      }
    }
  }

  /** The views of two lists one after the other. */
  lemma ObstacleViewsAppend(s: seq<Obstacles.Obstacle>, t: seq<Obstacles.Obstacle>)
    ensures ObstacleViews(s + t) == ObstacleViews(s) + ObstacleViews(t)
  {
    var u := s + t;
    forall k | 0 <= k < |u|
      ensures ObstacleViews(u)[k] == (ObstacleViews(s) + ObstacleViews(t))[k]
    {
      if k >= |s| {
        assert u[k] == t[k - |s|];
      }
    }
  }

  /** Removing an enemy from the list removes its state from the views. */
  lemma EnemyViewsRemove(s: seq<Enemies.Enemy>, i: int)
    requires 0 <= i < |s|
    ensures EnemyViews(s[..i] + s[i + 1..]) == EnemyViews(s)[..i] + EnemyViews(s)[i + 1..]
  {
    var t := s[..i] + s[i + 1..];
    forall k | 0 <= k < |t|
      ensures EnemyViews(t)[k] == (EnemyViews(s)[..i] + EnemyViews(s)[i + 1..])[k]
    {
      if k < i {
        assert t[k] == s[k];
      } else {
        assert t[k] == s[k + 1];
      }
    }
  }

  /** Removing a pickup from the list removes its state from the views. */
  lemma PowerUpViewsRemove(s: seq<PowerUps.PowerUp>, i: int)
    requires 0 <= i < |s|
    ensures PowerUpViews(s[..i] + s[i + 1..]) == PowerUpViews(s)[..i] + PowerUpViews(s)[i + 1..]
  {
    var t := s[..i] + s[i + 1..];
    forall k | 0 <= k < |t|
      ensures PowerUpViews(t)[k] == (PowerUpViews(s)[..i] + PowerUpViews(s)[i + 1..])[k]
    {
      if k < i {
        assert t[k] == s[k];
      } else {
        assert t[k] == s[k + 1];
      }
    }
  }

  class GamePanel {
    var player: Player
    var obstacles: seq<Obstacles.Obstacle>
    var powerUps: seq<PowerUps.PowerUp>
    var enemies: seq<Enemies.Enemy>
    var score: int
    var gameOver: bool
    var highScore: int
    var multiplier: int
    var multiplierTimer: int

    /** No object is listed twice, so updating one element leaves the others alone. */
    ghost predicate Valid()
      reads this
    {
      Distinct(obstacles) && Distinct(enemies) && Distinct(powerUps)
    }

    /** The craft and the scoring fields as a value. */
    function SessionView(): Session
      reads this, player
    {
      Session(player.View(), score, highScore, multiplier, multiplierTimer, gameOver)
    }

    /** The whole panel as a value. */
    function View(): World
      reads this, player, obstacles, enemies, powerUps
    {
      World(SessionView(), ObstacleViews(obstacles), EnemyViews(enemies), PowerUpViews(powerUps))
    }

    /** The panel with its field initialisers applied and the game initialised. */
    constructor ()
      ensures Valid() && View() == Initial() && Inv(View())
    {
      highScore := 0;
      multiplier := 1;
      multiplierTimer := 0;
      player := new Player(StartX, StartY);
      obstacles := [];
      powerUps := [];
      enemies := [];
      score := 0;
      gameOver := false;
      new;
      PressKeepsInv(Initial());
    }

    /** A new craft and empty lists; the high score and the combo carry over. */
    method InitializeGame()
      modifies this
      ensures Valid() && View() == Restarted(old(View()))
    {
      player := new Player(StartX, StartY);
      obstacles := [];
      powerUps := [];
      enemies := [];
      score := 0;
      gameOver := false;
    }

    /** One obstacle of the obstacle pass: the obstacle at index i scrolls; off-screen it is
        removed and scores at the current multiplier, otherwise if it meets the craft the combo
        is reset and the craft takes damage. */
    method PassObstacle(i: int) returns (kept: bool)
      requires 0 <= i < |obstacles|
      requires forall k :: 0 <= k < |obstacles| && k != i ==> obstacles[k] != obstacles[i]
      modifies this, player, obstacles[i]
      ensures player == old(player) && enemies == old(enemies) && powerUps == old(powerUps)
      ensures obstacles == if kept then old(obstacles) else old(obstacles[..i] + obstacles[i + 1..])
      ensures forall o :: o in obstacles ==> o in old(obstacles)
      ensures var views := old(ObstacleViews(obstacles));
        var o := Obstacles.Scrolled(views[i]);
        kept == !Obstacles.OffScreen(o) &&
        ObstacleViews(obstacles) == (if kept then views[i := o] else views[..i] + views[i + 1..]) &&
        SessionView() == ObstacleStep(o, old(SessionView()))
    {
      ghost var views := ObstacleViews(obstacles);
      var obstacle := obstacles[i];
      obstacle.Update();
      assert ObstacleViews(obstacles) == views[i := obstacle.View()];
      ObstacleViewsRemove(obstacles, i);
      ghost var updated := ObstacleViews(obstacles);
      if obstacle.IsOffScreen() {
        kept := false;
        obstacles := obstacles[..i] + obstacles[i + 1..];
        score := score + ObstaclePoints * multiplier;
        multiplier := multiplier + 1;
        multiplierTimer := ComboWindow;
        if score > highScore {
          highScore := score;
        }
      } else {
        kept := true;
        if obstacle.CollidesWith(player) {
          multiplier := 1;
          player.TakeDamage();
          if player.health <= 0 {
            gameOver := true;
          }
        }
      }
      assert ObstacleViews(obstacles) == (if kept then updated else updated[..i] + updated[i + 1..]);
    }

    /** The obstacle pass of a frame, from the last obstacle to the first. */
    method UpdateObstacles()
      requires Valid()
      modifies this, player, obstacles
      ensures Valid() && player == old(player) && enemies == old(enemies) && powerUps == old(powerUps)
      ensures forall o :: o in obstacles ==> o in old(obstacles)
      ensures ObstacleViews(obstacles) == ObstaclePass(old(ObstacleViews(obstacles)), [], old(SessionView())).kept
      ensures SessionView() == ObstaclePass(old(ObstacleViews(obstacles)), [], old(SessionView())).session
      ensures View() == ObstaclesPassed(old(View()))
    {
      ghost var w0 := View();
      ghost var pending := ObstacleViews(obstacles);
      ghost var s0 := SessionView();
      ghost var done: seq<Obstacles.ObstacleView> := [];
      var i := |obstacles| - 1;
      assert pending[..i + 1] == pending && pending[..i + 1] + done == pending;
      while i >= 0
        invariant -1 <= i < |pending| && i < |obstacles|
        invariant ObstacleViews(obstacles) == pending[..i + 1] + done
        invariant Distinct(obstacles) && forall o :: o in obstacles ==> o in old(obstacles)
        invariant player == old(player) && enemies == old(enemies) && powerUps == old(powerUps)
        invariant ObstaclePass(pending, [], s0) == ObstaclePass(pending[..i + 1], done, SessionView())
        decreases i + 1
      {
        ghost var o := Obstacles.Scrolled(pending[i]);
        ghost var before := obstacles;
        SplitAt(pending, done, i, o);
        ObstaclePassUnfold(pending, i, done, SessionView());
        assert before[i] in before;
        DistinctRemove(before, i);
        var kept := PassObstacle(i);
        if kept {
          done := [o] + done;
        }
        i := i - 1;
      }
      assert pending[..0] == [];
      assert ObstaclePass(pending, [], s0) == Pass(done, SessionView()) && ObstacleViews(obstacles) == done;
      assert EnemyViews(enemies) == w0.enemies;
      assert PowerUpViews(powerUps) == w0.powerUps;
      assert View() == w0.(session := SessionView(), obstacles := done);
    }

    /** One enemy of the enemy pass: the enemy at index i moves toward the craft; off-screen it
        is removed, otherwise if it meets the craft the craft takes damage. */
    method PassEnemy(i: int) returns (kept: bool)
      requires 0 <= i < |enemies|
      requires forall k :: 0 <= k < |enemies| && k != i ==> enemies[k] != enemies[i]
      modifies this, player, enemies[i]
      ensures player == old(player) && obstacles == old(obstacles) && powerUps == old(powerUps)
      ensures enemies == if kept then old(enemies) else old(enemies[..i] + enemies[i + 1..])
      ensures forall e :: e in enemies ==> e in old(enemies)
      ensures var views := old(EnemyViews(enemies));
        var e := Enemies.Moved(views[i], old(player.y));
        kept == !Enemies.OffScreen(e) &&
        EnemyViews(enemies) == (if kept then views[i := e] else views[..i] + views[i + 1..]) &&
        SessionView() == EnemyStep(e, old(SessionView()))
    {
      ghost var views := EnemyViews(enemies);
      var enemy := enemies[i];
      enemy.Update(player);
      assert EnemyViews(enemies) == views[i := enemy.View()];
      EnemyViewsRemove(enemies, i);
      ghost var updated := EnemyViews(enemies);
      if enemy.IsOffScreen() {
        kept := false;
        enemies := enemies[..i] + enemies[i + 1..];
      } else {
        kept := true;
        if enemy.CollidesWith(player) {
          player.TakeDamage();
          if player.health <= 0 {
            gameOver := true;
          }
        }
      }
      assert EnemyViews(enemies) == (if kept then updated else updated[..i] + updated[i + 1..]);
    }

    /** The enemy pass of a frame, from the last enemy to the first. */
    method UpdateEnemies()
      requires Valid()
      modifies this, player, enemies
      ensures Valid() && player == old(player) && obstacles == old(obstacles) && powerUps == old(powerUps)
      ensures forall e :: e in enemies ==> e in old(enemies)
      ensures EnemyViews(enemies) == EnemyPass(old(EnemyViews(enemies)), [], old(SessionView())).kept
      ensures SessionView() == EnemyPass(old(EnemyViews(enemies)), [], old(SessionView())).session
      ensures View() == EnemiesPassed(old(View()))
    {
      ghost var w0 := View();
      ghost var pending := EnemyViews(enemies);
      ghost var s0 := SessionView();
      ghost var done: seq<Enemies.EnemyView> := [];
      var i := |enemies| - 1;
      assert pending[..i + 1] == pending && pending[..i + 1] + done == pending;
      while i >= 0
        invariant -1 <= i < |pending| && i < |enemies|
        invariant EnemyViews(enemies) == pending[..i + 1] + done
        invariant Distinct(enemies) && forall e :: e in enemies ==> e in old(enemies)
        invariant player == old(player) && obstacles == old(obstacles) && powerUps == old(powerUps)
        invariant EnemyPass(pending, [], s0) == EnemyPass(pending[..i + 1], done, SessionView())
        decreases i + 1
      {
        ghost var e := Enemies.Moved(pending[i], player.y);
        ghost var before := enemies;
        SplitAt(pending, done, i, e);
        EnemyPassUnfold(pending, i, done, SessionView());
        assert before[i] in before;
        DistinctRemove(before, i);
        var kept := PassEnemy(i);
        if kept {
          done := [e] + done;
        }
        i := i - 1;
      }
      assert pending[..0] == [];
      assert EnemyPass(pending, [], s0) == Pass(done, SessionView()) && EnemyViews(enemies) == done;
      assert ObstacleViews(obstacles) == w0.obstacles;
      assert PowerUpViews(powerUps) == w0.powerUps;
      assert View() == w0.(session := SessionView(), enemies := done);
    }

    /** One pickup of the pickup pass: the pickup at index i moves; off-screen it is removed,
        otherwise if it meets the craft it takes effect by its kind, is removed and scores. */
    method PassPowerUp(i: int) returns (kept: bool)
      requires 0 <= i < |powerUps|
      requires forall k :: 0 <= k < |powerUps| && k != i ==> powerUps[k] != powerUps[i]
      modifies this, player, powerUps[i]
      ensures player == old(player) && obstacles == old(obstacles) && enemies == old(enemies)
      ensures powerUps == if kept then old(powerUps) else old(powerUps[..i] + powerUps[i + 1..])
      ensures forall p :: p in powerUps ==> p in old(powerUps)
      ensures var views := old(PowerUpViews(powerUps));
        var p := PowerUps.Moved(views[i]);
        kept == !(PowerUps.OffScreen(p) || PowerUps.Collides(p, Box(old(SessionView())))) &&
        PowerUpViews(powerUps) == (if kept then views[i := p] else views[..i] + views[i + 1..]) &&
        SessionView() == PowerUpStep(p, old(SessionView()))
    {
      ghost var views := PowerUpViews(powerUps);
      var powerUp := powerUps[i];
      powerUp.Update();
      assert PowerUpViews(powerUps) == views[i := powerUp.View()];
      PowerUpViewsRemove(powerUps, i);
      ghost var updated := PowerUpViews(powerUps);
      if powerUp.IsOffScreen() {
        kept := false;
        powerUps := powerUps[..i] + powerUps[i + 1..];
      } else if powerUp.CollidesWith(player) {
        if powerUp.GetType() == PowerUps.RocketBoost {
          player.ActivateBoost();
        } else {
          player.Heal();
        }
        kept := false;
        powerUps := powerUps[..i] + powerUps[i + 1..];
        score := score + PickupPoints;
      } else {
        kept := true;
      }
      assert PowerUpViews(powerUps) == (if kept then updated else updated[..i] + updated[i + 1..]);
    }

    /** The pickup pass of a frame, from the last pickup to the first. */
    method UpdatePowerUps()
      requires Valid()
      modifies this, player, powerUps
      ensures Valid() && player == old(player) && obstacles == old(obstacles) && enemies == old(enemies)
      ensures forall p :: p in powerUps ==> p in old(powerUps)
      ensures PowerUpViews(powerUps) == PowerUpPass(old(PowerUpViews(powerUps)), [], old(SessionView())).kept
      ensures SessionView() == PowerUpPass(old(PowerUpViews(powerUps)), [], old(SessionView())).session
      ensures View() == PowerUpsPassed(old(View()))
    {
      ghost var w0 := View();
      ghost var pending := PowerUpViews(powerUps);
      ghost var s0 := SessionView();
      ghost var done: seq<PowerUps.PowerUpView> := [];
      var i := |powerUps| - 1;
      assert pending[..i + 1] == pending && pending[..i + 1] + done == pending;
      while i >= 0
        invariant -1 <= i < |pending| && i < |powerUps|
        invariant PowerUpViews(powerUps) == pending[..i + 1] + done
        invariant Distinct(powerUps) && forall p :: p in powerUps ==> p in old(powerUps)
        invariant player == old(player) && obstacles == old(obstacles) && enemies == old(enemies)
        invariant PowerUpPass(pending, [], s0) == PowerUpPass(pending[..i + 1], done, SessionView())
        decreases i + 1
      {
        ghost var p := PowerUps.Moved(pending[i]);
        ghost var before := powerUps;
        SplitAt(pending, done, i, p);
        PowerUpPassUnfold(pending, i, done, SessionView());
        assert before[i] in before;
        DistinctRemove(before, i);
        var kept := PassPowerUp(i);
        if kept {
          done := [p] + done;
        }
        i := i - 1;
      }
      assert pending[..0] == [];
      assert PowerUpPass(pending, [], s0) == Pass(done, SessionView()) && PowerUpViews(powerUps) == done;
      assert ObstacleViews(obstacles) == w0.obstacles;
      assert EnemyViews(enemies) == w0.enemies;
      assert View() == w0.(session := SessionView(), powerUps := done);
    }

    /** The obstacles of a new wave: one at the right edge, and with enough score and the
        pattern draw a second one 300 (hard) or 250 (medium) further right. */
    method NewWave(d: TickDraws) returns (wave: seq<Obstacles.Obstacle>)
      requires d.Valid()
      ensures forall o :: o in wave ==> fresh(o)
      ensures Distinct(wave) && ObstacleViews(wave) == ObstacleWave(score, d)
    {
      var first := new Obstacles.Obstacle.Unforced(PanelWidth, d.gap1, d.pos1);
      if score > 30 && d.hardPattern < 0.3 {
        var second := new Obstacles.Obstacle.Unforced(PanelWidth + 300, d.gap2, d.pos2);
        wave := [first, second];
      } else if score > 15 && d.mediumPattern < 0.4 {
        var second := new Obstacles.Obstacle.Unforced(PanelWidth + 250, d.gap2, d.pos2);
        wave := [first, second];
      } else {
        wave := [first];
      }
    }

    /** Fewer than three obstacles left: a new wave joins the list. */
    method SpawnObstacles(d: TickDraws)
      requires d.Valid() && Distinct(obstacles)
      modifies this
      ensures Distinct(obstacles) && player == old(player) && enemies == old(enemies) && powerUps == old(powerUps)
      ensures forall o :: o in obstacles ==> o in old(obstacles) || fresh(o)
      ensures View() == ObstaclesSpawned(old(View()), d)
    {
      if |obstacles| < 3 {
        var wave := NewWave(d);
        ObstacleViewsAppend(obstacles, wave);
        DistinctAppend(obstacles, wave);
        obstacles := obstacles + wave;
      }
    }

    /** The combo window counts down; the frame it runs out the multiplier drops back to 1. */
    method TickMultiplierTimer()
      modifies this
      ensures player == old(player) && obstacles == old(obstacles) && enemies == old(enemies) && powerUps == old(powerUps)
      ensures SessionView() == ComboCountdown(old(SessionView()))
      ensures View() == ComboTicked(old(View()))
    {
      if multiplierTimer > 0 {
        multiplierTimer := multiplierTimer - 1;
        if multiplierTimer == 0 {
          multiplier := 1;
        }
      }
    }

    /** With a positive score and the chance draw below 1%, an enemy joins at the right edge:
        its height and kind drawn, the kind weighted by the score. */
    method SpawnEnemy(d: TickDraws)
      requires d.Valid() && Distinct(enemies)
      modifies this
      ensures Distinct(enemies) && player == old(player) && obstacles == old(obstacles) && powerUps == old(powerUps)
      ensures SessionView() == old(SessionView())
      ensures forall e :: e in enemies ==> e in old(enemies) || fresh(e)
      ensures EnemyViews(enemies) == WithNewEnemy(old(EnemyViews(enemies)), score, d)
      ensures View() == EnemySpawned(old(View()), d)
    {
      if score > 0 && d.enemyChance < 0.01 {
        Obstacles.ScaledDraw(d.enemyY, PanelHeight - 50);
        var enemyY := Trunc(d.enemyY * (PanelHeight - 50) as real);
        var kind: Enemies.EnemyType;
        var rand := d.enemyKind;
        if score < 10 {
          kind := Enemies.SecurityDrone;
        } else if score < 20 {
          kind := if rand < 0.7 then Enemies.SecurityDrone else Enemies.Turret;
        } else if rand < 0.5 {
          kind := Enemies.SecurityDrone;
        } else if rand < 0.8 {
          kind := Enemies.Turret;
        } else {
          kind := Enemies.HunterBot;
        }
        var enemy := new Enemies.Enemy(PanelWidth, enemyY, kind, d.droneSpeed);
        assert EnemyViews(enemies + [enemy]) == EnemyViews(enemies) + [NewEnemy(score, d)];
        enemies := enemies + [enemy];
      }
    }

    /** With the chance draw below 0.3%, a pickup joins at the right edge at a drawn height: a
        data pack 70% of the time when the craft is on its last unit of health, otherwise a
        kind drawn uniformly. */
    method SpawnPowerUp(d: TickDraws)
      requires d.Valid() && Distinct(powerUps)
      modifies this
      ensures Distinct(powerUps) && player == old(player) && obstacles == old(obstacles) && enemies == old(enemies)
      ensures SessionView() == old(SessionView())
      ensures forall p :: p in powerUps ==> p in old(powerUps) || fresh(p)
      ensures PowerUpViews(powerUps) == WithNewPowerUp(old(PowerUpViews(powerUps)), player.health, d)
      ensures View() == PowerUpSpawned(old(View()), d)
    {
      if d.powerUpChance < 0.003 {
        Obstacles.ScaledDraw(d.powerUpY, PanelHeight - 30);
        var powerUpY := Trunc(d.powerUpY * (PanelHeight - 30) as real);
        var kind: PowerUps.PowerUpType;
        if player.health == 1 && d.favourHeal < 0.7 {
          kind := PowerUps.DataPack;
        } else {
          Obstacles.ScaledDraw(d.powerUpKind, |PowerUpKinds|);
          kind := PowerUpKinds[Trunc(d.powerUpKind * |PowerUpKinds| as real)];
        }
        var powerUp := new PowerUps.PowerUp(PanelWidth, powerUpY, kind);
        assert PowerUpViews(powerUps + [powerUp]) == PowerUpViews(powerUps) + [NewPowerUp(player.health, d)];
        powerUps := powerUps + [powerUp];
      }
    }

    /** A craft resting against the top, or within 20 of the bottom, and almost motionless ends the game. */
    method CheckStuck()
      modifies this
      ensures player == old(player) && obstacles == old(obstacles) && enemies == old(enemies) && powerUps == old(powerUps)
      ensures SessionView() == if Stuck(player.View()) then old(SessionView()).(gameOver := true) else old(SessionView())
      ensures View() == StuckChecked(old(View()))
    {
      if (player.y <= 0.0 || player.y >= (PanelHeight - 20) as real) && Abs(player.velocityY) < 0.1 {
        gameOver := true;
      }
    }

    /** One frame of the running game: the craft, the three passes, new obstacles, the combo
        window, a new enemy, a new pickup and the stuck test, in this order. */
    method UpdateGame(d: TickDraws)
      requires d.Valid() && Valid()
      modifies this, player, obstacles, enemies, powerUps
      ensures Valid() && View() == Advance(old(View()), d)
    {
      ghost var w := View();
      player.Update();
      assert View() == CraftMoved(w);
      UpdateObstacles();
      UpdateEnemies();
      UpdatePowerUps();
      SpawnObstacles(d);
      TickMultiplierTimer();
      SpawnEnemy(d);
      SpawnPowerUp(d);
      CheckStuck();
      AdvanceInSteps(w, d);
    }

    /** A timer tick: a frame unless the game is over. Every state reached this way from a
        state satisfying the invariant satisfies it too. */
    method ActionPerformed(d: TickDraws)
      requires d.Valid() && Valid()
      modifies this, player, obstacles, enemies, powerUps
      ensures Valid() && View() == TimerTick(old(View()), d)
      ensures Inv(old(View())) ==> Inv(View())
    {
      ghost var w := View();
      if !gameOver {
        UpdateGame(d);
      }
      if Inv(w) {
        TimerTickKeepsInv(w, d);
      }
    }

    /** A mouse press: a thrust while the game runs, a restart once it is over. */
    method MousePressed()
      requires Valid()
      modifies this, player
      ensures Valid() && View() == Press(old(View()))
      ensures Inv(old(View())) ==> Inv(View())
    {
      ghost var w := View();
      if !gameOver {
        player.Thrust();
      } else {
        InitializeGame();
      }
      PressKeepsInv(w);
    }
  }
}
