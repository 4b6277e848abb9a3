/** The rules of the game panel on values: the scoring session, the three per-frame passes
    over obstacles, enemies and pickups, the spawning rules, one timer tick, a mouse press and
    a restart. The GamePanel class is proved to follow these functions. */
module Rules {
  import opened Geometry
  import opened Sweep
  import opened Players
  import Obstacles
  import Enemies
  import PowerUps

  /** Points for an obstacle that leaves the panel, before the multiplier. */
  const ObstaclePoints: int := 10
  /** Points for a collected pickup (no multiplier). */
  const PickupPoints: int := 5
  /** Frames a combo lasts without another obstacle cleared (three seconds at 60 frames per second). */
  const ComboWindow: int := 180
  /** Where every new craft starts. */
  const StartX: int := 100
  const StartY: int := PanelHeight / 2

  /** The random draws one frame may consume, each as a value of Math.random() in [0, 1),
      named for what it decides. A draw the frame does not need is ignored. */
  datatype TickDraws = TickDraws(
    hardPattern: real, mediumPattern: real,
    gap1: real, pos1: real, gap2: real, pos2: real,
    enemyChance: real, enemyY: real, enemyKind: real, droneSpeed: real,
    powerUpChance: real, powerUpY: real, favourHeal: real, powerUpKind: real)
  {
    predicate Valid()
    {
      0.0 <= hardPattern < 1.0 && 0.0 <= mediumPattern < 1.0 &&
      0.0 <= gap1 < 1.0 && 0.0 <= pos1 < 1.0 && 0.0 <= gap2 < 1.0 && 0.0 <= pos2 < 1.0 &&
      0.0 <= enemyChance < 1.0 && 0.0 <= enemyY < 1.0 && 0.0 <= enemyKind < 1.0 &&
      0.0 <= droneSpeed < 1.0 && 0.0 <= powerUpChance < 1.0 && 0.0 <= powerUpY < 1.0 &&
      0.0 <= favourHeal < 1.0 && 0.0 <= powerUpKind < 1.0
    }
  }

  /** The panel's scalar state: the craft and the scoring fields. */
  datatype Session = Session(
    player: PlayerView, score: int, highScore: int,
    multiplier: int, multiplierTimer: int, gameOver: bool)

  /** The panel's whole state: the session and the three entity lists, in list order. */
  datatype World = World(
    session: Session,
    obstacles: seq<Obstacles.ObstacleView>,
    enemies: seq<Enemies.EnemyView>,
    powerUps: seq<PowerUps.PowerUpView>)

  /** What a pass over one list leaves: the kept elements and the session. */
  datatype Pass<T> = Pass(kept: seq<T>, session: Session)

  function Min(a: int, b: int): int
  {
    if a < b then a else b
  }

  /** The craft's collision box. The passes change only its health and boost, so it is the
      same box for every element of a pass. */
  function Box(s: Session): Rect
  {
    PlayerBox(s.player)
  }

  /** An obstacle has been passed: points at the current multiplier, the combo grows and its
      window restarts, and the high score follows the score up. */
  function Cleared(s: Session): (r: Session)
    ensures r.score == s.score + ObstaclePoints * s.multiplier
    ensures r.multiplier == s.multiplier + 1 && r.multiplierTimer == ComboWindow
    ensures r.highScore >= s.highScore && r.highScore >= r.score
    ensures r.highScore == s.highScore || r.highScore == r.score
    ensures r.player == s.player && r.gameOver == s.gameOver
  {
    var score := s.score + ObstaclePoints * s.multiplier;
    s.(score := score, multiplier := s.multiplier + 1, multiplierTimer := ComboWindow,
       highScore := if score > s.highScore then score else s.highScore)
  }

  /** The craft is hit: it takes damage, and the game is over once its health is at most 0. */
  function Hit(s: Session): (r: Session)
    ensures r.player == Damaged(s.player)
    ensures r.gameOver <==> s.gameOver || r.player.health <= 0
    ensures r.(player := s.player, gameOver := s.gameOver) == s
  {
    var p := Damaged(s.player);
    s.(player := p, gameOver := if p.health <= 0 then true else s.gameOver)
  }

  /** A pickup is collected: a boost or one unit of health, and PickupPoints. */
  function Collected(s: Session, kind: PowerUps.PowerUpType): (r: Session)
    ensures r.score == s.score + PickupPoints
    ensures kind == PowerUps.RocketBoost ==>
      r.player.hasBoost && r.player.boostTimer == BoostDuration && r.player.health == s.player.health
    ensures kind == PowerUps.DataPack ==> r.player == Healed(s.player)
    ensures Box(r) == Box(s) && r.(player := s.player, score := s.score) == s
  {
    var p := if kind == PowerUps.RocketBoost then Boosted(s.player) else Healed(s.player);
    s.(player := p, score := s.score + PickupPoints)
  }

  /** An obstacle that hits the box: it is still on the panel and meets it. */
  function ObstacleHit(box: Rect): Obstacles.ObstacleView -> bool
  {
    o => !Obstacles.OffScreen(o) && Obstacles.Collides(o, box)
  }

  /** One enemy frame for a craft at height y. */
  function EnemyMove(y: real): Enemies.EnemyView -> Enemies.EnemyView
  {
    e => Enemies.Moved(e, y)
  }

  /** An enemy that hits the box: it is still on the panel and meets it. */
  function EnemyHit(box: Rect): Enemies.EnemyView -> bool
  {
    e => !Enemies.OffScreen(e) && Enemies.Collides(e, box)
  }

  /** A pickup that is collected by a craft with this box. */
  function Picked(box: Rect): PowerUps.PowerUpView -> bool
  {
    p => !PowerUps.OffScreen(p) && PowerUps.Collides(p, box)
  }

  /** A pickup of the given kind collected by a craft with this box. */
  function PickedKind(box: Rect, kind: PowerUps.PowerUpType): PowerUps.PowerUpView -> bool
  {
    p => !PowerUps.OffScreen(p) && PowerUps.Collides(p, box) && p.kind == kind
  }

  /** A pickup that leaves the list: off the panel or collected. */
  function PickupGone(box: Rect): PowerUps.PowerUpView -> bool
  {
    p => PowerUps.OffScreen(p) || PowerUps.Collides(p, box)
  }

  /** What an obstacle, once scrolled, does to the session: off-screen it scores at the current
      multiplier and raises it; otherwise, if it meets the craft, it resets the multiplier to 1
      and hits, without points. The craft's box is the same afterwards. */
  function ObstacleStep(o: Obstacles.ObstacleView, s: Session): (r: Session)
    ensures Box(r) == Box(s) && r.player.y == s.player.y
    ensures Obstacles.OffScreen(o) ==>
      r.score == s.score + ObstaclePoints * s.multiplier && r.multiplier == s.multiplier + 1 &&
      r.multiplierTimer == ComboWindow && r.highScore >= r.score && r.highScore >= s.highScore &&
      r.player == s.player && r.gameOver == s.gameOver
    ensures !Obstacles.OffScreen(o) && Obstacles.Collides(o, Box(s)) ==>
      r.multiplier == 1 && r.score == s.score && r.highScore == s.highScore &&
      r.multiplierTimer == s.multiplierTimer && r.player == Damaged(s.player) &&
      (r.gameOver <==> s.gameOver || r.player.health <= 0)
    ensures !Obstacles.OffScreen(o) && !Obstacles.Collides(o, Box(s)) ==> r == s
  {
    if Obstacles.OffScreen(o) then Cleared(s)
    else if Obstacles.Collides(o, Box(s)) then Hit(s.(multiplier := 1))
    else s
  }

  /** The obstacle pass, from the last element to the first: each obstacle scrolls and takes its
      step; an off-screen one is dropped. `kept` holds the survivors of the elements already processed. */
  function ObstaclePass(pending: seq<Obstacles.ObstacleView>, kept: seq<Obstacles.ObstacleView>, s: Session)
    : (r: Pass<Obstacles.ObstacleView>)
    ensures |r.kept| <= |pending| + |kept|
    decreases |pending|
  {
    if pending == [] then Pass(kept, s)
    else
      var o := Obstacles.Scrolled(pending[|pending| - 1]);
      ObstaclePass(pending[..|pending| - 1], if Obstacles.OffScreen(o) then kept else [o] + kept, ObstacleStep(o, s))
  }

  /** The pass over the first i + 1 elements starts with element i. */
  lemma ObstaclePassUnfold(pending: seq<Obstacles.ObstacleView>, i: int, kept: seq<Obstacles.ObstacleView>, s: Session)
    requires 0 <= i < |pending|
    ensures var o := Obstacles.Scrolled(pending[i]);
      ObstaclePass(pending[..i + 1], kept, s) ==
      ObstaclePass(pending[..i], if Obstacles.OffScreen(o) then kept else [o] + kept, ObstacleStep(o, s))
  {
    assert pending[..i + 1][..i] == pending[..i];
  }

  /** What an enemy, once moved, does to the session: on the panel and meeting the craft, it hits. */
  function EnemyStep(e: Enemies.EnemyView, s: Session): Session
  {
    if !Enemies.OffScreen(e) && Enemies.Collides(e, Box(s)) then Hit(s) else s
  }

  /** An enemy on the panel that meets the craft costs one unit of health (none under a boost)
      and ends the game once health is at most 0; any other enemy changes nothing. Only the
      craft's health and the game-over flag ever change, so the box stays where it is. */
  lemma EnemyStepEffect(e: Enemies.EnemyView, s: Session)
    ensures var r := EnemyStep(e, s);
      Box(r) == Box(s) && r.player.y == s.player.y &&
      (!Enemies.OffScreen(e) && Enemies.Collides(e, Box(s)) ==>
        r.player == Damaged(s.player) && (r.gameOver <==> s.gameOver || r.player.health <= 0)) &&
      (Enemies.OffScreen(e) || !Enemies.Collides(e, Box(s)) ==> r == s) &&
      r.(player := s.player, gameOver := s.gameOver) == s
  {
  }

  /** The enemy pass, from the last element to the first: each enemy moves toward the craft's
      height and takes its step; an off-screen one is dropped, one that hits stays. */
  function EnemyPass(pending: seq<Enemies.EnemyView>, kept: seq<Enemies.EnemyView>, s: Session)
    : (r: Pass<Enemies.EnemyView>)
    ensures |r.kept| <= |pending| + |kept|
    decreases |pending|
  {
    if pending == [] then Pass(kept, s)
    else
      var e := Enemies.Moved(pending[|pending| - 1], s.player.y);
      EnemyPass(pending[..|pending| - 1], if Enemies.OffScreen(e) then kept else [e] + kept, EnemyStep(e, s))
  }

  /** The pass over the first i + 1 elements starts with element i. */
  lemma EnemyPassUnfold(pending: seq<Enemies.EnemyView>, i: int, kept: seq<Enemies.EnemyView>, s: Session)
    requires 0 <= i < |pending|
    ensures var e := Enemies.Moved(pending[i], s.player.y);
      EnemyPass(pending[..i + 1], kept, s) ==
      EnemyPass(pending[..i], if Enemies.OffScreen(e) then kept else [e] + kept, EnemyStep(e, s))
  {
    assert pending[..i + 1][..i] == pending[..i];
  }

  /** What a pickup, once moved, does to the session: on the panel and meeting the craft, it is collected. */
  function PowerUpStep(p: PowerUps.PowerUpView, s: Session): Session
  {
    if !PowerUps.OffScreen(p) && PowerUps.Collides(p, Box(s)) then Collected(s, p.kind) else s
  }

  /** A pickup on the panel that meets the craft is worth PickupPoints and takes effect by its
      kind; any other pickup changes nothing. The high score, the combo, the game-over flag and
      the craft's box are untouched. */
  lemma PowerUpStepEffect(p: PowerUps.PowerUpView, s: Session)
    ensures var r := PowerUpStep(p, s);
      Box(r) == Box(s) &&
      (!PowerUps.OffScreen(p) && PowerUps.Collides(p, Box(s)) ==>
        r.score == s.score + PickupPoints && r == Collected(s, p.kind)) &&
      (PowerUps.OffScreen(p) || !PowerUps.Collides(p, Box(s)) ==> r == s) &&
      r.(player := s.player, score := s.score) == s
  {
  }

  /** The pickup pass, from the last element to the first: each pickup moves and takes its step;
      one that is off-screen or collected is dropped. */
  function PowerUpPass(pending: seq<PowerUps.PowerUpView>, kept: seq<PowerUps.PowerUpView>, s: Session)
    : (r: Pass<PowerUps.PowerUpView>)
    ensures |r.kept| <= |pending| + |kept|
    decreases |pending|
  {
    if pending == [] then Pass(kept, s)
    else
      var p := PowerUps.Moved(pending[|pending| - 1]);
      var gone := PowerUps.OffScreen(p) || PowerUps.Collides(p, Box(s));
      PowerUpPass(pending[..|pending| - 1], if gone then kept else [p] + kept, PowerUpStep(p, s))
  }

  /** The pass over the first i + 1 elements starts with element i. */
  lemma PowerUpPassUnfold(pending: seq<PowerUps.PowerUpView>, i: int, kept: seq<PowerUps.PowerUpView>, s: Session)
    requires 0 <= i < |pending|
    ensures var p := PowerUps.Moved(pending[i]);
      var gone := PowerUps.OffScreen(p) || PowerUps.Collides(p, Box(s));
      PowerUpPass(pending[..i + 1], kept, s) ==
      PowerUpPass(pending[..i], if gone then kept else [p] + kept, PowerUpStep(p, s))
  {
    assert pending[..i + 1][..i] == pending[..i];
  }

  /** Points earned by clearing n obstacles in a row starting at multiplier m: 10m, 10(m+1), ... */
  function ComboPoints(m: int, n: nat): int
    decreases n
  {
    if n == 0 then 0 else ObstaclePoints * m + ComboPoints(m + 1, n - 1)
  }

  /** The closed form of a combo: n obstacles from multiplier m earn 5n(2m + n - 1). */
  lemma {:induction false} ComboPointsClosedForm(m: int, n: nat)
    ensures 2 * ComboPoints(m, n) == ObstaclePoints * n * (2 * m + n - 1)
    decreases n
  {
    if n > 0 {
      ComboPointsClosedForm(m + 1, n - 1);
      calc {
        2 * ComboPoints(m, n);
        2 * ObstaclePoints * m + ObstaclePoints * (n - 1) * (2 * m + n);
        { assert (n - 1) * (2 * m + n) == n * (2 * m + n - 1) - 2 * m; }
        ObstaclePoints * n * (2 * m + n - 1);
      }
    }
  }

  /** The obstacle pass keeps exactly the scrolled obstacles that are still on the panel, in order. */
  lemma {:induction false} ObstaclePassKeeps(pending: seq<Obstacles.ObstacleView>, kept: seq<Obstacles.ObstacleView>, s: Session)
    ensures ObstaclePass(pending, kept, s).kept == Kept(pending, Obstacles.Scrolled, Obstacles.OffScreen) + kept
    decreases |pending|
  {
    if pending != [] {
      var o := Obstacles.Scrolled(pending[|pending| - 1]);
      var rest := pending[..|pending| - 1];
      if Obstacles.OffScreen(o) {
        ObstaclePassKeeps(rest, kept, Cleared(s));
      } else if Obstacles.Collides(o, Box(s)) {
        ObstaclePassKeeps(rest, [o] + kept, Hit(s.(multiplier := 1)));
        assert Kept(rest, Obstacles.Scrolled, Obstacles.OffScreen) + ([o] + kept)
          == (Kept(rest, Obstacles.Scrolled, Obstacles.OffScreen) + [o]) + kept;
      } else {
        ObstaclePassKeeps(rest, [o] + kept, s);
        assert Kept(rest, Obstacles.Scrolled, Obstacles.OffScreen) + ([o] + kept)
          == (Kept(rest, Obstacles.Scrolled, Obstacles.OffScreen) + [o]) + kept;
      }
    }
  }

  /** Every obstacle of the pass that hits the craft costs one unit of health (none under a
      boost), nothing else about the craft changes, and the game is over after the pass exactly
      when it was before or the health has dropped to 0 or below. */
  lemma {:induction false} ObstaclePassDamage(pending: seq<Obstacles.ObstacleView>, kept: seq<Obstacles.ObstacleView>, s: Session)
    requires s.player.health <= 0 ==> s.gameOver
    ensures var r := ObstaclePass(pending, kept, s).session;
      r.player == DamagedTimes(s.player, Count(pending, Obstacles.Scrolled, ObstacleHit(Box(s)))) &&
      (r.gameOver <==> s.gameOver || r.player.health <= 0)
    decreases |pending|
  {
    if pending != [] {
      var o := Obstacles.Scrolled(pending[|pending| - 1]);
      var rest := pending[..|pending| - 1];
      if Obstacles.OffScreen(o) {
        ObstaclePassDamage(rest, kept, Cleared(s));
      } else if Obstacles.Collides(o, Box(s)) {
        var s' := Hit(s.(multiplier := 1));
        assert Box(s') == Box(s);
        ObstaclePassDamage(rest, [o] + kept, s');
        RepeatedDamage(s'.player, Count(rest, Obstacles.Scrolled, ObstacleHit(Box(s))));
      } else {
        ObstaclePassDamage(rest, [o] + kept, s);
      }
    }
  }

  /** The obstacle pass never lowers the score or the high score and keeps the multiplier at
      least 1. If no obstacle left the panel the score, high score and combo window are as
      before; if one did, the combo window is full and the high score has caught up with the score. */
  lemma {:induction false} ObstaclePassScore(pending: seq<Obstacles.ObstacleView>, kept: seq<Obstacles.ObstacleView>, s: Session)
    requires s.multiplier >= 1
    ensures var r := ObstaclePass(pending, kept, s).session;
      var n := Count(pending, Obstacles.Scrolled, Obstacles.OffScreen);
      r.score >= s.score && r.highScore >= s.highScore && r.multiplier >= 1 &&
      (n == 0 ==> r.score == s.score && r.highScore == s.highScore && r.multiplierTimer == s.multiplierTimer) &&
      (n > 0 ==> r.multiplierTimer == ComboWindow && r.highScore >= r.score) &&
      (s.highScore >= s.score ==> r.highScore >= r.score)
    decreases |pending|
  {
    if pending != [] {
      var o := Obstacles.Scrolled(pending[|pending| - 1]);
      var rest := pending[..|pending| - 1];
      if Obstacles.OffScreen(o) {
        ObstaclePassScore(rest, kept, Cleared(s));
      } else if Obstacles.Collides(o, Box(s)) {
        ObstaclePassScore(rest, [o] + kept, Hit(s.(multiplier := 1)));
      } else {
        ObstaclePassScore(rest, [o] + kept, s);
      }
    }
  }

  /** Without a hit in the pass, n obstacles leaving the panel earn ComboPoints(m, n) and raise
      the multiplier by n. */
  lemma {:induction false} ObstaclePassCombo(pending: seq<Obstacles.ObstacleView>, kept: seq<Obstacles.ObstacleView>, s: Session)
    requires Count(pending, Obstacles.Scrolled, ObstacleHit(Box(s))) == 0
    ensures var r := ObstaclePass(pending, kept, s).session;
      var n := Count(pending, Obstacles.Scrolled, Obstacles.OffScreen);
      r.score == s.score + ComboPoints(s.multiplier, n) && r.multiplier == s.multiplier + n
    decreases |pending|
  {
    if pending != [] {
      var o := Obstacles.Scrolled(pending[|pending| - 1]);
      var rest := pending[..|pending| - 1];
      if Obstacles.OffScreen(o) {
        assert Box(Cleared(s)) == Box(s);
        ObstaclePassCombo(rest, kept, Cleared(s));
      } else {
        ObstaclePassCombo(rest, [o] + kept, s);
      }
    }
  }

  /** A hit resets the multiplier to 1. The pass takes the obstacles from the last to the first,
      so the hit at the lowest index h is the last one: the multiplier after the pass is 1 plus
      the number of obstacles below h that leave the panel. */
  lemma {:induction false} ObstaclePassHitResetsCombo(pending: seq<Obstacles.ObstacleView>, kept: seq<Obstacles.ObstacleView>, s: Session, h: int)
    requires 0 <= h < |pending|
    requires ObstacleHit(Box(s))(Obstacles.Scrolled(pending[h]))
    requires Count(pending[..h], Obstacles.Scrolled, ObstacleHit(Box(s))) == 0
    ensures ObstaclePass(pending, kept, s).session.multiplier ==
      1 + Count(pending[..h], Obstacles.Scrolled, Obstacles.OffScreen)
    decreases |pending|
  {
    var o := Obstacles.Scrolled(pending[|pending| - 1]);
    var rest := pending[..|pending| - 1];
    var s' := ObstacleStep(o, s);
    var kept' := if Obstacles.OffScreen(o) then kept else [o] + kept;
    if h == |pending| - 1 {
      assert rest == pending[..h];
      ObstaclePassCombo(rest, kept', s');
    } else {
      assert rest[..h] == pending[..h] && rest[h] == pending[h];
      ObstaclePassHitResetsCombo(rest, kept', s', h);
    }
  }

  /** The enemy pass keeps exactly the moved enemies that are still on the panel, in order. */
  lemma {:induction false} EnemyPassKeeps(pending: seq<Enemies.EnemyView>, kept: seq<Enemies.EnemyView>, s: Session)
    ensures EnemyPass(pending, kept, s).kept == Kept(pending, EnemyMove(s.player.y), Enemies.OffScreen) + kept
    decreases |pending|
  {
    if pending != [] {
      var e := Enemies.Moved(pending[|pending| - 1], s.player.y);
      var rest := pending[..|pending| - 1];
      var before := Kept(rest, EnemyMove(s.player.y), Enemies.OffScreen);
      if Enemies.OffScreen(e) {
        EnemyPassKeeps(rest, kept, s);
      } else if Enemies.Collides(e, Box(s)) {
        assert Hit(s).player.y == s.player.y;
        EnemyPassKeeps(rest, [e] + kept, Hit(s));
        assert before + ([e] + kept) == (before + [e]) + kept;
      } else {
        EnemyPassKeeps(rest, [e] + kept, s);
        assert before + ([e] + kept) == (before + [e]) + kept;
      }
    }
  }

  /** Every enemy of the pass that hits the craft costs one unit of health (none under a boost),
      nothing but the craft's health and the game-over flag changes, and the game is over after
      the pass exactly when it was before or the health has dropped to 0 or below. */
  lemma {:induction false} EnemyPassDamage(pending: seq<Enemies.EnemyView>, kept: seq<Enemies.EnemyView>, s: Session)
    requires s.player.health <= 0 ==> s.gameOver
    ensures var r := EnemyPass(pending, kept, s).session;
      r.player == DamagedTimes(s.player, Count(pending, EnemyMove(s.player.y), EnemyHit(Box(s)))) &&
      r.(player := s.player, gameOver := s.gameOver) == s &&
      (r.gameOver <==> s.gameOver || r.player.health <= 0)
    decreases |pending|
  {
    if pending != [] {
      var e := Enemies.Moved(pending[|pending| - 1], s.player.y);
      var rest := pending[..|pending| - 1];
      if Enemies.OffScreen(e) {
        EnemyPassDamage(rest, kept, s);
      } else if Enemies.Collides(e, Box(s)) {
        var s' := Hit(s);
        assert Box(s') == Box(s) && s'.player.y == s.player.y;
        EnemyPassDamage(rest, [e] + kept, s');
        RepeatedDamage(s'.player, Count(rest, EnemyMove(s.player.y), EnemyHit(Box(s))));
      } else {
        EnemyPassDamage(rest, [e] + kept, s);
      }
    }
  }

  /** The pickup pass keeps exactly the moved pickups that are neither off the panel nor collected. */
  lemma {:induction false} PowerUpPassKeeps(pending: seq<PowerUps.PowerUpView>, kept: seq<PowerUps.PowerUpView>, s: Session)
    ensures PowerUpPass(pending, kept, s).kept == Kept(pending, PowerUps.Moved, PickupGone(Box(s))) + kept
    decreases |pending|
  {
    if pending != [] {
      var p := PowerUps.Moved(pending[|pending| - 1]);
      var rest := pending[..|pending| - 1];
      var before := Kept(rest, PowerUps.Moved, PickupGone(Box(s)));
      if PowerUps.OffScreen(p) {
        PowerUpPassKeeps(rest, kept, s);
      } else if PowerUps.Collides(p, Box(s)) {
        assert Box(Collected(s, p.kind)) == Box(s);
        PowerUpPassKeeps(rest, kept, Collected(s, p.kind));
      } else {
        PowerUpPassKeeps(rest, [p] + kept, s);
        assert before + ([p] + kept) == (before + [p]) + kept;
      }
    }
  }

  /** Each collected pickup is worth PickupPoints; each data pack adds a unit of health up to
      MaxHealth; a collected boost leaves the boost on with a full timer, and without one the
      boost is as before. The craft's position and speed, the high score, the combo and the
      game-over flag are untouched. */
  lemma {:induction false} PowerUpPassEffects(pending: seq<PowerUps.PowerUpView>, kept: seq<PowerUps.PowerUpView>, s: Session)
    requires s.player.health <= MaxHealth
    ensures var r := PowerUpPass(pending, kept, s).session;
      var box := Box(s);
      var boosts := Count(pending, PowerUps.Moved, PickedKind(box, PowerUps.RocketBoost));
      r.score == s.score + PickupPoints * Count(pending, PowerUps.Moved, Picked(box)) &&
      r.player.health == Min(MaxHealth, s.player.health + Count(pending, PowerUps.Moved, PickedKind(box, PowerUps.DataPack))) &&
      (boosts > 0 ==> r.player.hasBoost && r.player.boostTimer == BoostDuration) &&
      (boosts == 0 ==> r.player.hasBoost == s.player.hasBoost && r.player.boostTimer == s.player.boostTimer) &&
      r.player.x == s.player.x && r.player.y == s.player.y && r.player.velocityY == s.player.velocityY &&
      r.(player := s.player, score := s.score) == s
    decreases |pending|
  {
    if pending != [] {
      var p := PowerUps.Moved(pending[|pending| - 1]);
      var rest := pending[..|pending| - 1];
      if PowerUps.OffScreen(p) {
        PowerUpPassEffects(rest, kept, s);
      } else if PowerUps.Collides(p, Box(s)) {
        var s' := Collected(s, p.kind);
        assert Box(s') == Box(s);
        PowerUpPassEffects(rest, kept, s');
      } else {
        PowerUpPassEffects(rest, [p] + kept, s);
      }
    }
  }

  /** The obstacles a frame adds when fewer than three remain: one at the right edge, and a second
      300 further on when the score is above 30 and the draw says so, or else 250 further on when
      the score is above 15 and the next draw says so. */
  function ObstacleWave(score: int, d: TickDraws): (r: seq<Obstacles.ObstacleView>)
    requires d.Valid()
    ensures 1 <= |r| <= 2 && r[0].x == PanelWidth
    ensures forall o :: o in r ==> Obstacles.WellFormed(o)
    ensures |r| == 2 <==> (score > 30 && d.hardPattern < 0.3) || (score > 15 && d.mediumPattern < 0.4)
    ensures |r| == 2 && score > 30 && d.hardPattern < 0.3 ==> r[1].x == PanelWidth + 300
    ensures |r| == 2 && !(score > 30 && d.hardPattern < 0.3) ==> r[1].x == PanelWidth + 250
  {
    var first := Obstacles.Spawn(PanelWidth, -1, false, d.gap1, d.pos1);
    if score > 30 && d.hardPattern < 0.3 then
      [first, Obstacles.Spawn(PanelWidth + 300, -1, false, d.gap2, d.pos2)]
    else if score > 15 && d.mediumPattern < 0.4 then
      [first, Obstacles.Spawn(PanelWidth + 250, -1, false, d.gap2, d.pos2)]
    else
      [first]
  }

  /** New obstacles are added only when fewer than three remain. */
  function WithNewObstacles(obstacles: seq<Obstacles.ObstacleView>, score: int, d: TickDraws)
    : (r: seq<Obstacles.ObstacleView>)
    requires d.Valid()
    ensures |obstacles| >= 3 ==> r == obstacles
    ensures |obstacles| < 3 ==> r == obstacles + ObstacleWave(score, d)
  {
    if |obstacles| < 3 then obstacles + ObstacleWave(score, d) else obstacles
  }

  /** The combo window counts down once per frame; the frame it reaches 0 the multiplier drops to 1. */
  function ComboCountdown(s: Session): (r: Session)
    ensures s.multiplierTimer > 0 ==> r.multiplierTimer == s.multiplierTimer - 1
    ensures s.multiplierTimer <= 0 ==> r == s
    ensures r.multiplier == (if s.multiplierTimer == 1 then 1 else s.multiplier)
    ensures r.(multiplier := s.multiplier, multiplierTimer := s.multiplierTimer) == s
  {
    if s.multiplierTimer > 0 then
      var t := s.multiplierTimer - 1;
      s.(multiplierTimer := t, multiplier := if t == 0 then 1 else s.multiplier)
    else s
  }

  /** A combo with n frames left and no obstacle cleared meanwhile ends after exactly n frames. */
  lemma {:induction false} ComboExpires(s: Session, n: nat)
    requires 0 < n <= s.multiplierTimer
    ensures ComboCountdownTimes(s, n).multiplierTimer == s.multiplierTimer - n
    ensures ComboCountdownTimes(s, n).multiplier == (if n == s.multiplierTimer then 1 else s.multiplier)
    decreases n
  {
    if n > 1 {
      ComboExpires(ComboCountdown(s), n - 1);
    }
  }

  /** The session after n countdown steps. */
  function ComboCountdownTimes(s: Session, n: nat): Session
    decreases n
  {
    if n == 0 then s else ComboCountdownTimes(ComboCountdown(s), n - 1)
  }

  /** The kind of a new enemy: only drones below 10 points; below 20, drones (70%) and turrets;
      from 20 on, drones (50%), turrets (30%) and hunters (20%). */
  function EnemyKindFor(score: int, draw: real): (k: Enemies.EnemyType)
    ensures score < 10 ==> k == Enemies.SecurityDrone
    ensures k == Enemies.HunterBot ==> score >= 20
    ensures 10 <= score < 20 ==> (k == Enemies.SecurityDrone <==> draw < 0.7) && k != Enemies.HunterBot
    ensures score >= 20 ==>
      (k == Enemies.SecurityDrone <==> draw < 0.5) && (k == Enemies.HunterBot <==> draw >= 0.8)
  {
    if score < 10 then Enemies.SecurityDrone
    else if score < 20 then (if draw < 0.7 then Enemies.SecurityDrone else Enemies.Turret)
    else if draw < 0.5 then Enemies.SecurityDrone
    else if draw < 0.8 then Enemies.Turret
    else Enemies.HunterBot
  }

  /** A new enemy at the right edge, at a drawn height in [0, 550). */
  function NewEnemy(score: int, d: TickDraws): (e: Enemies.EnemyView)
    requires d.Valid()
    ensures e.x == PanelWidth as real && 0.0 <= e.y < (PanelHeight - 50) as real
    ensures e.kind == EnemyKindFor(score, d.enemyKind) && Enemies.WellFormed(e)
  {
    Obstacles.ScaledDraw(d.enemyY, PanelHeight - 50);
    Enemies.Spawned(PanelWidth, Trunc(d.enemyY * (PanelHeight - 50) as real), EnemyKindFor(score, d.enemyKind), d.droneSpeed)
  }

  /** With a positive score, one frame in a hundred (by the draw) adds an enemy. */
  function WithNewEnemy(enemies: seq<Enemies.EnemyView>, score: int, d: TickDraws): (r: seq<Enemies.EnemyView>)
    requires d.Valid()
    ensures score > 0 && d.enemyChance < 0.01 ==> r == enemies + [NewEnemy(score, d)]
    ensures !(score > 0 && d.enemyChance < 0.01) ==> r == enemies
  {
    if score > 0 && d.enemyChance < 0.01 then enemies + [NewEnemy(score, d)] else enemies
  }

  /** The pickup kinds in declaration order, as PowerUpType.values() lists them. */
  const PowerUpKinds: seq<PowerUps.PowerUpType> := [PowerUps.RocketBoost, PowerUps.DataPack]

  /** The kind of a new pickup: a craft on its last unit of health gets a data pack 70% of the
      time (by the favour draw); otherwise each kind is equally likely. */
  function PowerUpKindFor(health: int, favour: real, draw: real): (k: PowerUps.PowerUpType)
    requires 0.0 <= draw < 1.0
    ensures health == 1 && favour < 0.7 ==> k == PowerUps.DataPack
    ensures !(health == 1 && favour < 0.7) ==> (k == PowerUps.RocketBoost <==> draw < 0.5)
  {
    if health == 1 && favour < 0.7 then PowerUps.DataPack
    else
      Obstacles.ScaledDraw(draw, |PowerUpKinds|);
      PowerUpKinds[Trunc(draw * |PowerUpKinds| as real)]
  }

  /** A new pickup at the right edge, at a drawn height in [0, 570). */
  function NewPowerUp(health: int, d: TickDraws): (p: PowerUps.PowerUpView)
    requires d.Valid()
    ensures p.x == PanelWidth && 0 <= p.y < PanelHeight - 30
    ensures p.kind == PowerUpKindFor(health, d.favourHeal, d.powerUpKind) && p.glow == PowerUps.Glow(0, true)
  {
    Obstacles.ScaledDraw(d.powerUpY, PanelHeight - 30);
    PowerUps.Spawned(PanelWidth, Trunc(d.powerUpY * (PanelHeight - 30) as real),
      PowerUpKindFor(health, d.favourHeal, d.powerUpKind))
  }

  /** Three frames in a thousand (by the draw) add a pickup, whatever the score. */
  function WithNewPowerUp(powerUps: seq<PowerUps.PowerUpView>, health: int, d: TickDraws): (r: seq<PowerUps.PowerUpView>)
    requires d.Valid()
    ensures d.powerUpChance < 0.003 ==> r == powerUps + [NewPowerUp(health, d)]
    ensures d.powerUpChance >= 0.003 ==> r == powerUps
  {
    if d.powerUpChance < 0.003 then powerUps + [NewPowerUp(health, d)] else powerUps
  }

  /** The craft rests against the top, or within 20 of the bottom, almost motionless. */
  predicate Stuck(p: PlayerView)
    ensures 0.0 < p.y < (PanelHeight - CraftHeight) as real ==> !Stuck(p)
    ensures Abs(p.velocityY) >= 0.1 ==> !Stuck(p)
  {
    (p.y <= 0.0 || p.y >= (PanelHeight - CraftHeight) as real) && Abs(p.velocityY) < 0.1
  }

  /** A craft lying on the floor without speed bounces back up at 0.147, which is not yet stuck,
      and one frame later at under 0.075, which is: resting on the floor ends the game on the
      second frame. */
  lemma RestingOnTheFloorGetsStuck(p: PlayerView)
    requires p.y == PanelHeight as real && p.velocityY == 0.0
    ensures Updated(p).y == PanelHeight as real && Updated(p).velocityY == -0.147
    ensures !Stuck(Updated(p)) && Stuck(Updated(Updated(p)))
  {
    assert Updated(Updated(p)).velocityY == -0.07497;
  }

  /** One frame of the running game, in the order updateGame takes its steps. */
  function Advance(w: World, d: TickDraws): (r: World)
    requires d.Valid()
    ensures 1 <= |r.obstacles| <= |w.obstacles| + 2
    ensures |r.enemies| <= |w.enemies| + 1 && |r.powerUps| <= |w.powerUps| + 1
  {
    var s0 := w.session.(player := Updated(w.session.player));
    var r1 := ObstaclePass(w.obstacles, [], s0);
    var r2 := EnemyPass(w.enemies, [], r1.session);
    var r3 := PowerUpPass(w.powerUps, [], r2.session);
    var obstacles := WithNewObstacles(r1.kept, r3.session.score, d);
    var s4 := ComboCountdown(r3.session);
    var enemies := WithNewEnemy(r2.kept, s4.score, d);
    var powerUps := WithNewPowerUp(r3.kept, s4.player.health, d);
    var s5 := if Stuck(s4.player) then s4.(gameOver := true) else s4;
    World(s5, obstacles, enemies, powerUps)
  }

  /** The craft's own update, the first step of a frame. */
  function CraftMoved(w: World): (r: World)
    ensures r.session.player == Updated(w.session.player)
    ensures r.(session := w.session) == w && r.session.(player := w.session.player) == w.session
  {
    w.(session := w.session.(player := Updated(w.session.player)))
  }

  /** The obstacle pass as a step of the frame. */
  function ObstaclesPassed(w: World): World
  {
    var r := ObstaclePass(w.obstacles, [], w.session);
    w.(session := r.session, obstacles := r.kept)
  }

  /** The enemy pass as a step of the frame. */
  function EnemiesPassed(w: World): World
  {
    var r := EnemyPass(w.enemies, [], w.session);
    w.(session := r.session, enemies := r.kept)
  }

  /** The pickup pass as a step of the frame. */
  function PowerUpsPassed(w: World): World
  {
    var r := PowerUpPass(w.powerUps, [], w.session);
    w.(session := r.session, powerUps := r.kept)
  }

  /** New obstacles as a step of the frame. */
  function ObstaclesSpawned(w: World, d: TickDraws): (r: World)
    requires d.Valid()
    ensures r.(obstacles := w.obstacles) == w
  {
    w.(obstacles := WithNewObstacles(w.obstacles, w.session.score, d))
  }

  /** The combo countdown as a step of the frame. */
  function ComboTicked(w: World): (r: World)
    ensures r.(session := w.session) == w
  {
    w.(session := ComboCountdown(w.session))
  }

  /** A new enemy as a step of the frame. */
  function EnemySpawned(w: World, d: TickDraws): (r: World)
    requires d.Valid()
    ensures r.(enemies := w.enemies) == w
  {
    w.(enemies := WithNewEnemy(w.enemies, w.session.score, d))
  }

  /** A new pickup as a step of the frame. */
  function PowerUpSpawned(w: World, d: TickDraws): (r: World)
    requires d.Valid()
    ensures r.(powerUps := w.powerUps) == w
  {
    w.(powerUps := WithNewPowerUp(w.powerUps, w.session.player.health, d))
  }

  /** The stuck test as the last step of the frame. */
  function StuckChecked(w: World): (r: World)
    ensures r.session.gameOver == (w.session.gameOver || Stuck(w.session.player))
    ensures r.(session := w.session) == w && r.session.(gameOver := w.session.gameOver) == w.session
  {
    if Stuck(w.session.player) then w.(session := w.session.(gameOver := true)) else w
  }

  /** A frame is its steps one after the other. */
  lemma AdvanceInSteps(w: World, d: TickDraws)
    requires d.Valid()
    ensures Advance(w, d) ==
      StuckChecked(PowerUpSpawned(EnemySpawned(ComboTicked(ObstaclesSpawned(
        PowerUpsPassed(EnemiesPassed(ObstaclesPassed(CraftMoved(w)))), d)), d), d))
  {
  }

  /** A timer tick: a frame while the game runs, nothing once it is over. */
  function TimerTick(w: World, d: TickDraws): (r: World)
    requires d.Valid()
    ensures w.session.gameOver ==> r == w
    ensures !w.session.gameOver ==> r == Advance(w, d)
  {
    if w.session.gameOver then w else Advance(w, d)
  }

  /** The state right after construction: a fresh craft, nothing on screen, no score. */
  function Initial(): (w: World)
    ensures w.session.player == Spawned(StartX, StartY)
    ensures w.session.score == 0 && w.session.highScore == 0
    ensures w.session.multiplier == 1 && w.session.multiplierTimer == 0 && !w.session.gameOver
    ensures w.obstacles == [] && w.enemies == [] && w.powerUps == []
  {
    World(Session(Spawned(StartX, StartY), 0, 0, 1, 0, false), [], [], [])
  }

  /** A restart: a fresh craft, empty lists, score 0 and the game running; the high score,
      the multiplier and the combo window carry over. */
  function Restarted(w: World): (r: World)
    ensures r.session.player == Spawned(StartX, StartY) && r.session.score == 0 && !r.session.gameOver
    ensures r.session.highScore == w.session.highScore
    ensures r.session.multiplier == w.session.multiplier && r.session.multiplierTimer == w.session.multiplierTimer
    ensures r.obstacles == [] && r.enemies == [] && r.powerUps == []
  {
    World(w.session.(player := Spawned(StartX, StartY), score := 0, gameOver := false), [], [], [])
  }

  /** A mouse press: a thrust while the game runs, a restart once it is over. */
  function Press(w: World): (r: World)
    ensures !w.session.gameOver ==>
      r == w.(session := w.session.(player := Thrusted(w.session.player))) && r.session.player.velocityY < 0.0
    ensures w.session.gameOver ==> r == Restarted(w) && !r.session.gameOver
  {
    if !w.session.gameOver then w.(session := w.session.(player := Thrusted(w.session.player)))
    else Restarted(w)
  }

  /** What every reachable session satisfies: the multiplier is at least 1, nothing is negative
      that counts up, health is at most MaxHealth and at most 0 only once the game is over, and a
      boost is on only while its timer runs. */
  predicate SessionInv(s: Session)
  {
    s.multiplier >= 1 && s.multiplierTimer >= 0 && s.score >= 0 && s.highScore >= 0 &&
    s.player.health <= MaxHealth && (s.player.health <= 0 ==> s.gameOver) &&
    0 <= s.player.boostTimer <= BoostDuration && (s.player.hasBoost ==> s.player.boostTimer > 0)
  }

  /** What every reachable list satisfies: at most four obstacles, all well-formed, enemies with
      the velocities of their kind, and glows in range. */
  predicate ListsInv(w: World)
  {
    |w.obstacles| <= 4 &&
    (forall o :: o in w.obstacles ==> Obstacles.WellFormed(o)) &&
    (forall e :: e in w.enemies ==> Enemies.WellFormed(e)) &&
    (forall p :: p in w.powerUps ==> PowerUps.GlowInRange(p.glow))
  }

  /** What every reachable state satisfies. */
  predicate Inv(w: World)
  {
    SessionInv(w.session) && ListsInv(w)
  }

  /** The craft as the frame's passes see it: after its own update. */
  function FrameCraft(w: World): PlayerView
  {
    Updated(w.session.player)
  }

  /** How many obstacles and enemies hit the craft in the frame. */
  function FrameHits(w: World): nat
  {
    var p := FrameCraft(w);
    Count(w.obstacles, Obstacles.Scrolled, ObstacleHit(PlayerBox(p))) +
    Count(w.enemies, EnemyMove(p.y), EnemyHit(PlayerBox(p)))
  }

  /** How many pickups of a kind the craft collects in the frame. */
  function FramePicks(w: World, kind: PowerUps.PowerUpType): nat
  {
    Count(w.powerUps, PowerUps.Moved, PickedKind(PlayerBox(FrameCraft(w)), kind))
  }

  /** The three passes of a frame, one after the other, with what each lemma about them says. */
  lemma FramePasses(w: World)
    requires Inv(w)
    ensures var p0 := FrameCraft(w);
      var s0 := w.session.(player := p0);
      var r1 := ObstaclePass(w.obstacles, [], s0);
      var r2 := EnemyPass(w.enemies, [], r1.session);
      var r3 := PowerUpPass(w.powerUps, [], r2.session);
      var hurt := if p0.hasBoost then p0 else p0.(health := p0.health - FrameHits(w));
      Box(r1.session) == Box(s0) && r1.session.player.y == p0.y &&
      r2.session.player == hurt &&
      r2.session.(player := r1.session.player, gameOver := r1.session.gameOver) == r1.session &&
      (r2.session.gameOver <==> w.session.gameOver || hurt.health <= 0) &&
      r1.kept == Kept(w.obstacles, Obstacles.Scrolled, Obstacles.OffScreen) &&
      r2.kept == Kept(w.enemies, EnemyMove(p0.y), Enemies.OffScreen) &&
      r3.kept == Kept(w.powerUps, PowerUps.Moved, PickupGone(PlayerBox(p0)))
  {
    var p0 := FrameCraft(w);
    var s0 := w.session.(player := p0);
    var r1 := ObstaclePass(w.obstacles, [], s0);
    ObstaclePassDamage(w.obstacles, [], s0);
    ObstaclePassKeeps(w.obstacles, [], s0);
    var n1 := Count(w.obstacles, Obstacles.Scrolled, ObstacleHit(Box(s0)));
    RepeatedDamage(p0, n1);
    assert Box(r1.session) == Box(s0);
    var r2 := EnemyPass(w.enemies, [], r1.session);
    EnemyPassDamage(w.enemies, [], r1.session);
    EnemyPassKeeps(w.enemies, [], r1.session);
    var n2 := Count(w.enemies, EnemyMove(p0.y), EnemyHit(Box(s0)));
    RepeatedDamage(r1.session.player, n2);
    PowerUpPassKeeps(w.powerUps, [], r2.session);
  }

  /** The game is over after a frame exactly when it was before, or the craft, unboosted, took at
      least as many hits as it had health, or it ended the frame stuck at an edge. Health
      collected later in the same frame does not undo a game over. */
  lemma AdvanceGameOver(w: World, d: TickDraws)
    requires Inv(w) && d.Valid()
    ensures Advance(w, d).session.gameOver <==>
      w.session.gameOver ||
      (!FrameCraft(w).hasBoost && FrameHits(w) >= w.session.player.health) ||
      Stuck(FrameCraft(w))
  {
    var p0 := FrameCraft(w);
    var s0 := w.session.(player := p0);
    var r1 := ObstaclePass(w.obstacles, [], s0);
    var r2 := EnemyPass(w.enemies, [], r1.session);
    FramePasses(w);
    PowerUpPassEffects(w.powerUps, [], r2.session);
  }

  /** The craft's health after a frame: the hits of the frame (none under a boost), then the data
      packs collected, capped at MaxHealth. */
  lemma AdvanceHealth(w: World, d: TickDraws)
    requires Inv(w) && d.Valid()
    ensures var p0 := FrameCraft(w);
      Advance(w, d).session.player.health ==
        Min(MaxHealth, (if p0.hasBoost then p0.health else p0.health - FrameHits(w)) + FramePicks(w, PowerUps.DataPack))
  {
    var p0 := FrameCraft(w);
    var s0 := w.session.(player := p0);
    var r1 := ObstaclePass(w.obstacles, [], s0);
    var r2 := EnemyPass(w.enemies, [], r1.session);
    FramePasses(w);
    PowerUpPassEffects(w.powerUps, [], r2.session);
  }

  /** A frame never lowers the score or the high score. Without a hit on an obstacle, the score
      grows by exactly the combo points of the obstacles passed plus PickupPoints per pickup
      collected; an obstacle passed leaves the combo window at 179 after the frame's countdown,
      and without one the high score does not move, whatever the pickups added to the score. */
  lemma AdvanceScore(w: World, d: TickDraws)
    requires Inv(w) && d.Valid()
    ensures var r := Advance(w, d).session;
      var cleared := Count(w.obstacles, Obstacles.Scrolled, Obstacles.OffScreen);
      var picked := Count(w.powerUps, PowerUps.Moved, Picked(PlayerBox(FrameCraft(w))));
      r.score >= w.session.score && r.highScore >= w.session.highScore &&
      (Count(w.obstacles, Obstacles.Scrolled, ObstacleHit(PlayerBox(FrameCraft(w)))) == 0 ==>
        r.score == w.session.score + ComboPoints(w.session.multiplier, cleared) + PickupPoints * picked) &&
      (cleared > 0 ==> r.multiplierTimer == ComboWindow - 1) &&
      (cleared == 0 ==> r.highScore == w.session.highScore) &&
      (cleared == 0 && w.session.multiplierTimer > 0 ==> r.multiplierTimer == w.session.multiplierTimer - 1)
  {
    var p0 := FrameCraft(w);
    var s0 := w.session.(player := p0);
    var r1 := ObstaclePass(w.obstacles, [], s0);
    var r2 := EnemyPass(w.enemies, [], r1.session);
    FramePasses(w);
    ObstaclePassScore(w.obstacles, [], s0);
    if Count(w.obstacles, Obstacles.Scrolled, ObstacleHit(PlayerBox(p0))) == 0 {
      ObstaclePassCombo(w.obstacles, [], s0);
    }
    PowerUpPassEffects(w.powerUps, [], r2.session);
  }

  /** The high score follows the score only when an obstacle leaves the panel: a frame in which
      a fresh craft collects a pickup and no obstacle is cleared ends with a score of 5 and a high
      score still at 0. */
  lemma PickupLeavesHighScoreBehind()
    ensures var d := TickDraws(0.5, 0.5, 0.5, 0.5, 0.5, 0.5, 0.5, 0.5, 0.5, 0.5, 0.5, 0.5, 0.5, 0.5);
      var w := World(Initial().session, [], [], [PowerUps.Spawned(StartX + PowerUps.PickupSpeed, StartY, PowerUps.DataPack)]);
      d.Valid() && Inv(w) && Advance(w, d).session.score == PickupPoints && Advance(w, d).session.highScore == 0
  {
    var d := TickDraws(0.5, 0.5, 0.5, 0.5, 0.5, 0.5, 0.5, 0.5, 0.5, 0.5, 0.5, 0.5, 0.5, 0.5);
    var w := World(Initial().session, [], [], [PowerUps.Spawned(StartX + PowerUps.PickupSpeed, StartY, PowerUps.DataPack)]);
    var p0 := FrameCraft(w);
    assert p0.y == 300.294 && PlayerBox(p0) == Rect(100, 300, 40, 20);
    var s0 := w.session.(player := p0);
    var p := PowerUps.Moved(w.powerUps[0]);
    assert PowerUps.Collides(p, Box(s0)) && !PowerUps.OffScreen(p);
    assert w.powerUps[..0] == [];
    assert PowerUpPass(w.powerUps, [], s0) == Pass([], Collected(s0, PowerUps.DataPack));
  }

  /** The lists after a frame: the survivors of each pass in their order, then what the frame
      spawned. At least one obstacle is always on its way, and never more than four. */
  lemma AdvanceLists(w: World, d: TickDraws)
    requires Inv(w) && d.Valid()
    ensures var r := Advance(w, d);
      var p0 := FrameCraft(w);
      var obstacles := Kept(w.obstacles, Obstacles.Scrolled, Obstacles.OffScreen);
      var enemies := Kept(w.enemies, EnemyMove(p0.y), Enemies.OffScreen);
      var powerUps := Kept(w.powerUps, PowerUps.Moved, PickupGone(PlayerBox(p0)));
      |r.obstacles| >= |obstacles| && r.obstacles[..|obstacles|] == obstacles &&
      1 <= |r.obstacles| <= 4 && (|obstacles| >= 3 <==> r.obstacles == obstacles) &&
      (r.enemies == enemies || r.enemies == enemies + [NewEnemy(r.session.score, d)]) &&
      (r.powerUps == powerUps || r.powerUps == powerUps + [NewPowerUp(r.session.player.health, d)])
  {
    var p0 := FrameCraft(w);
    var s0 := w.session.(player := p0);
    var r1 := ObstaclePass(w.obstacles, [], s0);
    var r2 := EnemyPass(w.enemies, [], r1.session);
    var r3 := PowerUpPass(w.powerUps, [], r2.session);
    FramePasses(w);
    var obstacles := WithNewObstacles(r1.kept, r3.session.score, d);
    assert obstacles[..|r1.kept|] == r1.kept;
  }

  /** The glow of a pickup is in range. */
  predicate GlowOk(p: PowerUps.PowerUpView)
  {
    PowerUps.GlowInRange(p.glow)
  }

  /** The session after the three passes of a frame, before the countdown and the stuck test. */
  function PassedSession(w: World): Session
  {
    var s0 := w.session.(player := FrameCraft(w));
    var r1 := ObstaclePass(w.obstacles, [], s0);
    var r2 := EnemyPass(w.enemies, [], r1.session);
    PowerUpPass(w.powerUps, [], r2.session).session
  }

  /** The pickup pass keeps the session invariant. */
  lemma PowerUpPassKeepsSessionInv(pending: seq<PowerUps.PowerUpView>, kept: seq<PowerUps.PowerUpView>, s: Session)
    requires SessionInv(s)
    ensures SessionInv(PowerUpPass(pending, kept, s).session)
  {
    PowerUpPassEffects(pending, kept, s);
  }

  /** The three passes of a frame keep the session invariant. */
  lemma PassesKeepSessionInv(w: World)
    requires Inv(w)
    ensures SessionInv(PassedSession(w))
  {
    var p0 := FrameCraft(w);
    var s0 := w.session.(player := p0);
    var r1 := ObstaclePass(w.obstacles, [], s0);
    var r2 := EnemyPass(w.enemies, [], r1.session);
    FramePasses(w);
    ObstaclePassScore(w.obstacles, [], s0);
    assert SessionInv(r2.session);
    PowerUpPassKeepsSessionInv(w.powerUps, [], r2.session);
  }

  /** A frame keeps the session invariant. */
  lemma AdvanceKeepsSessionInv(w: World, d: TickDraws)
    requires Inv(w) && d.Valid()
    ensures SessionInv(Advance(w, d).session)
  {
    PassesKeepSessionInv(w);
    var s4 := ComboCountdown(PassedSession(w));
    assert Advance(w, d).session == if Stuck(s4.player) then s4.(gameOver := true) else s4;
  }

  /** After a frame there are at most four obstacles, all well formed. */
  lemma AdvanceKeepsObstaclesInv(w: World, d: TickDraws)
    requires Inv(w) && d.Valid()
    ensures var r := Advance(w, d);
      |r.obstacles| <= 4 && forall o :: o in r.obstacles ==> Obstacles.WellFormed(o)
  {
    var r := Advance(w, d);
    AdvanceLists(w, d);
    var obstacles := Kept(w.obstacles, Obstacles.Scrolled, Obstacles.OffScreen);
    KeptPreserves(w.obstacles, Obstacles.Scrolled, Obstacles.OffScreen, Obstacles.WellFormed);
    if |obstacles| < 3 {
      assert r.obstacles == obstacles + ObstacleWave(r.session.score, d) by {
        FramePasses(w);
      }
    }
  }

  /** After a frame every enemy still moves at the speeds of its kind. */
  lemma AdvanceKeepsEnemiesInv(w: World, d: TickDraws)
    requires Inv(w) && d.Valid()
    ensures forall e :: e in Advance(w, d).enemies ==> Enemies.WellFormed(e)
  {
    AdvanceLists(w, d);
    KeptPreserves(w.enemies, EnemyMove(FrameCraft(w).y), Enemies.OffScreen, Enemies.WellFormed);
  }

  /** After a frame every pickup's glow is in range. */
  lemma AdvanceKeepsGlowsInv(w: World, d: TickDraws)
    requires Inv(w) && d.Valid()
    ensures forall p :: p in Advance(w, d).powerUps ==> GlowOk(p)
  {
    AdvanceLists(w, d);
    KeptPreserves(w.powerUps, PowerUps.Moved, PickupGone(PlayerBox(FrameCraft(w))), GlowOk);
  }

  /** A frame keeps the list invariant. */
  lemma AdvanceKeepsListsInv(w: World, d: TickDraws)
    requires Inv(w) && d.Valid()
    ensures ListsInv(Advance(w, d))
  {
    AdvanceKeepsObstaclesInv(w, d);
    AdvanceKeepsEnemiesInv(w, d);
    AdvanceKeepsGlowsInv(w, d);
  }

  /** A frame keeps the invariant. */
  lemma AdvanceKeepsInv(w: World, d: TickDraws)
    requires Inv(w) && d.Valid()
    ensures Inv(Advance(w, d))
  {
    AdvanceKeepsSessionInv(w, d);
    AdvanceKeepsListsInv(w, d);
  }

  /** A timer tick keeps the invariant. */
  lemma TimerTickKeepsInv(w: World, d: TickDraws)
    requires Inv(w) && d.Valid()
    ensures Inv(TimerTick(w, d))
  {
    if !w.session.gameOver {
      AdvanceKeepsInv(w, d);
    }
  }

  /** The initial state satisfies the invariant, and so does every state a mouse press leads to. */
  lemma PressKeepsInv(w: World)
    ensures Inv(Initial())
    ensures Inv(w) ==> Inv(Press(w))
  {
  }
}
