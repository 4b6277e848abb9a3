/** The player's craft: vertical physics with a bounce at the panel edges, health, and the
    boost that grants damage immunity for a fixed number of frames. */
module Players {
  import opened Geometry

  const ThrustPower: real := -6.0
  const Gravity: real := 0.3
  const Dampening: real := 0.98
  const MaxFallSpeed: real := 7.0
  const MaxHealth: int := 3
  /** Frames a boost lasts (five seconds at 60 frames per second). */
  const BoostDuration: int := 300
  /** Size of the craft's collision box. */
  const CraftWidth: int := 40
  const CraftHeight: int := 20

  /** The state of a craft: the fields of one Player object. */
  datatype PlayerView = PlayerView(x: real, y: real, velocityY: real, health: int, hasBoost: bool, boostTimer: int)

  /** A craft as the constructor leaves it at (startX, startY). */
  function Spawned(startX: int, startY: int): (p: PlayerView)
    ensures p.x == startX as real && p.y == startY as real && p.velocityY == 0.0
    ensures p.health == MaxHealth && !p.hasBoost && p.boostTimer == 0
  {
    PlayerView(startX as real, startY as real, 0.0, MaxHealth, false, 0)
  }

  /** Vertical speed after gravity and dampening, before the fall-speed cap. Gravity wins over
      dampening below 14.7, the uncapped terminal speed, so below it the craft always gains
      downward speed; the cap of 7 keeps every craft below it. */
  function FreeVelocity(p: PlayerView): (v: real)
    ensures v > p.velocityY <==> p.velocityY < 14.7
    ensures v == p.velocityY <==> p.velocityY == 14.7
  {
    (p.velocityY + Gravity) * Dampening
  }

  /** Height the craft moves to before the panel edges are applied: below the terminal speed it
      moves further down than its old speed alone would take it. */
  function FreeY(p: PlayerView): (y: real)
    ensures p.velocityY < 14.7 ==> y > p.y + p.velocityY
  {
    p.y + FreeVelocity(p)
  }

  /** One frame of the craft: boost countdown, gravity and dampening, movement, fall-speed cap,
      and a bounce at half speed off the top and bottom edges. */
  function Updated(p: PlayerView): (r: PlayerView)
    ensures 0.0 <= r.y <= PanelHeight as real
    ensures r.x == p.x && r.health == p.health
    ensures p.hasBoost ==> r.boostTimer == p.boostTimer - 1 && (r.hasBoost <==> r.boostTimer > 0)
    ensures !p.hasBoost ==> !r.hasBoost && r.boostTimer == p.boostTimer
  {
    var timer := if p.hasBoost then p.boostTimer - 1 else p.boostTimer;
    var boost := p.hasBoost && timer > 0;
    var v := if FreeVelocity(p) > MaxFallSpeed then MaxFallSpeed else FreeVelocity(p);
    var y := FreeY(p);
    if y < 0.0 then
      PlayerView(p.x, 0.0, Abs(v) * 0.5, p.health, boost, timer)
    else if y > PanelHeight as real then
      PlayerView(p.x, PanelHeight as real, -Abs(v) * 0.5, p.health, boost, timer)
    else
      PlayerView(p.x, y, v, p.health, boost, timer)
  }

  /** A bounce off the top leaves the craft at 0 moving down or still, a bounce off the bottom
      leaves it at the panel height moving up or still, and otherwise it moves freely with its
      speed capped at 7. */
  lemma UpdateClamps(p: PlayerView)
    ensures FreeY(p) < 0.0 ==> Updated(p).y == 0.0 && Updated(p).velocityY >= 0.0
    ensures FreeY(p) > PanelHeight as real ==>
      Updated(p).y == PanelHeight as real && Updated(p).velocityY <= 0.0
    ensures 0.0 <= FreeY(p) <= PanelHeight as real ==>
      Updated(p).y == FreeY(p) && Updated(p).velocityY <= MaxFallSpeed &&
      (FreeVelocity(p) <= MaxFallSpeed ==> Updated(p).velocityY == FreeVelocity(p))
  {
  }

  /** The craft after n frames without any other event. */
  function UpdatedTimes(p: PlayerView, n: nat): PlayerView
    decreases n
  {
    if n == 0 then p else UpdatedTimes(Updated(p), n - 1)
  }

  /** A running boost counts down one per frame and ends on the frame its timer reaches 0. */
  lemma {:induction false} BoostCountdown(p: PlayerView, n: nat)
    requires p.hasBoost && 0 < p.boostTimer && n <= p.boostTimer
    ensures UpdatedTimes(p, n).boostTimer == p.boostTimer - n
    ensures UpdatedTimes(p, n).hasBoost <==> n < p.boostTimer
    decreases n
  {
    if n > 0 {
      var q := Updated(p);
      if q.hasBoost {
        BoostCountdown(q, n - 1);
      } else {
        assert n == 1;
      }
    }
  }

  /** The impulse of a thrust: stronger when falling fast, and stronger again under a boost. */
  function ThrustVelocity(fallingFast: bool, boosted: bool): (v: real)
    ensures v < 0.0
    ensures v == -6.0 || v == -9.0 || v == -7.8 || v == -10.8
    ensures fallingFast <==> v < -9.0 || v == -7.8
    ensures boosted <==> v == -9.0 || v == -10.8
  {
    if fallingFast then
      (if boosted then ThrustPower * 1.8 else ThrustPower * 1.3)
    else
      (if boosted then ThrustPower * 1.5 else ThrustPower)
  }

  /** In either case a boosted thrust is stronger than an unboosted one, and a falling-fast
      thrust is stronger than a normal one. */
  lemma ThrustOrdering(fallingFast: bool, boosted: bool)
    ensures ThrustVelocity(fallingFast, true) < ThrustVelocity(fallingFast, false)
    ensures ThrustVelocity(true, boosted) < ThrustVelocity(false, boosted)
  {
  }

  /** A thrust replaces the vertical speed; falling fast means moving down faster than 4. */
  function Thrusted(p: PlayerView): (r: PlayerView)
    ensures r.velocityY < 0.0 && r.(velocityY := p.velocityY) == p
    ensures r.velocityY == ThrustVelocity(p.velocityY > 4.0, p.hasBoost)
  {
    p.(velocityY := ThrustVelocity(p.velocityY > 4.0, p.hasBoost))
  }

  /** A boost pickup: the boost is on with a full timer, whatever it was before. */
  function Boosted(p: PlayerView): (r: PlayerView)
    ensures r.hasBoost && r.boostTimer == BoostDuration
    ensures r.(hasBoost := p.hasBoost, boostTimer := p.boostTimer) == p
  {
    p.(hasBoost := true, boostTimer := BoostDuration)
  }

  /** Once boosted, the craft stays immune for 299 more frames and loses the boost on the 300th. */
  lemma BoostLastsItsDuration(p: PlayerView)
    ensures UpdatedTimes(Boosted(p), BoostDuration - 1).hasBoost
    ensures !UpdatedTimes(Boosted(p), BoostDuration).hasBoost
  {
    BoostCountdown(Boosted(p), BoostDuration - 1);
    BoostCountdown(Boosted(p), BoostDuration);
  }

  /** A hit costs one unit of health unless the boost is on; there is no lower bound. */
  function Damaged(p: PlayerView): (r: PlayerView)
    ensures p.hasBoost ==> r == p
    ensures !p.hasBoost ==> r.health == p.health - 1 && r.(health := p.health) == p
  {
    if p.hasBoost then p else p.(health := p.health - 1)
  }

  /** The craft after n hits in one frame. */
  function DamagedTimes(p: PlayerView, n: nat): PlayerView
    decreases n
  {
    if n == 0 then p else DamagedTimes(Damaged(p), n - 1)
  }

  /** Unboosted, n hits cost exactly n units of health, so health falls below 0 once n exceeds
      it; boosted, hits change nothing. Nothing but health ever changes. */
  lemma {:induction false} RepeatedDamage(p: PlayerView, n: nat)
    ensures DamagedTimes(p, n) == if p.hasBoost then p else p.(health := p.health - n)
    decreases n
  {
    if n > 0 {
      RepeatedDamage(Damaged(p), n - 1);
    }
  }

  /** A health pickup adds one unit of health but never goes past MaxHealth. */
  function Healed(p: PlayerView): (r: PlayerView)
    ensures p.health <= MaxHealth ==> r.health <= MaxHealth
    ensures p.health <= r.health <= p.health + 1
    ensures r.health == p.health <==> p.health >= MaxHealth
    ensures r.(health := p.health) == p
  {
    if p.health < MaxHealth then p.(health := p.health + 1) else p
  }

  /** The collision box: 40 by 20 at the truncated position. */
  function PlayerBox(p: PlayerView): (b: Rect)
    ensures b.w == CraftWidth && b.h == CraftHeight
    ensures b.x == Trunc(p.x) && b.y == Trunc(p.y)
    ensures 0.0 <= p.y ==> b.y as real <= p.y < b.y as real + 1.0
  {
    Rect(Trunc(p.x), Trunc(p.y), CraftWidth, CraftHeight)
  }

  /** The player's craft. Its horizontal position is fixed at construction. */
  class Player {
    const x: real
    var y: real
    var velocityY: real
    var health: int
    var hasBoost: bool
    var boostTimer: int

    /** The object's state as a value. */
    function View(): PlayerView
      reads this
    {
      PlayerView(x, y, velocityY, health, hasBoost, boostTimer)
    }

    constructor (startX: int, startY: int)
      ensures View() == Spawned(startX, startY)
    {
      x := startX as real;
      y := startY as real;
      velocityY := 0.0;
      health := MaxHealth;
      hasBoost := false;
      boostTimer := 0;
    }

    method Update()
      modifies this
      ensures View() == Updated(old(View()))
      ensures 0.0 <= y <= PanelHeight as real
    {
      if hasBoost {
        boostTimer := boostTimer - 1;
        if boostTimer <= 0 {
          hasBoost := false;
        }
      }
      velocityY := velocityY + Gravity;
      velocityY := velocityY * Dampening;
      y := y + velocityY;
      if velocityY > MaxFallSpeed {
        velocityY := MaxFallSpeed;
      }
      if y < 0.0 {
        y := 0.0;
        velocityY := Abs(velocityY) * 0.5;
      } else if y > PanelHeight as real {
        y := PanelHeight as real;
        velocityY := -Abs(velocityY) * 0.5;
      }
    }

    method Thrust()
      modifies this
      ensures View() == Thrusted(old(View()))
      ensures velocityY < 0.0
    {
      if velocityY > 4.0 {
        velocityY := if hasBoost then ThrustPower * 1.8 else ThrustPower * 1.3;
      } else {
        velocityY := if hasBoost then ThrustPower * 1.5 else ThrustPower;
      }
    }

    method ActivateBoost()
      modifies this
      ensures View() == Boosted(old(View()))
    {
      hasBoost := true;
      boostTimer := BoostDuration;
    }

    method TakeDamage()
      modifies this
      ensures View() == Damaged(old(View()))
    {
      if !hasBoost {
        health := health - 1;
      }
    }

    method Heal()
      modifies this
      ensures View() == Healed(old(View()))
      ensures old(health) <= MaxHealth ==> health <= MaxHealth
    {
      if health < MaxHealth {
        health := health + 1;
      }
    }

    /** The collision box at the current position. */
    function GetBounds(): (b: Rect)
      reads this
      ensures b == PlayerBox(View())
    {
      Rect(Trunc(x), Trunc(y), CraftWidth, CraftHeight)
    }
  }
}
