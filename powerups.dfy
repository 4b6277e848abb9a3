/** Pickups that scroll in from the right: a rocket boost or a data pack (one unit of health).
    Each carries a pulsing glow that is drawn but plays no part in the simulation. */
module PowerUps {
  import opened Geometry
  import Players

  datatype PowerUpType = RocketBoost | DataPack

  const PickupSize: int := 20
  const PickupSpeed: int := 3
  /** The glow is counted in steps of 0.05, so full glow (1.0) is step 20. */
  const GlowPeak: int := 20

  /** The glow level in twentieths and whether it is rising. */
  datatype Glow = Glow(level: int, rising: bool)

  /** The state of a pickup. */
  datatype PowerUpView = PowerUpView(x: int, y: int, kind: PowerUpType, glow: Glow)

  /** A pickup as the constructor builds it: no glow, rising. */
  function Spawned(startX: int, startY: int, kind: PowerUpType): (p: PowerUpView)
    ensures p.x == startX && p.y == startY && p.kind == kind
    ensures p.glow == Glow(0, true)
  {
    PowerUpView(startX, startY, kind, Glow(0, true))
  }

  /** The glow levels reachable from a fresh pickup: within [0, GlowPeak], below the peak while
      rising and above 0 while falling. */
  predicate GlowInRange(g: Glow)
  {
    0 <= g.level <= GlowPeak && (g.rising ==> g.level < GlowPeak) && (!g.rising ==> 0 < g.level)
  }

  /** One step of the glow: up or down by one, turning at the peak and at 0. */
  function Pulsed(g: Glow): (r: Glow)
    ensures GlowInRange(g) ==> GlowInRange(r)
    ensures g.rising ==> r.level == g.level + 1 && (r.rising <==> r.level < GlowPeak)
    ensures !g.rising ==> r.level == g.level - 1 && (r.rising <==> r.level <= 0)
  {
    if g.rising then
      var level := g.level + 1;
      Glow(level, level < GlowPeak)
    else
      var level := g.level - 1;
      Glow(level, level <= 0)
  }

  /** The glow after n steps. */
  function PulsedTimes(g: Glow, n: nat): Glow
    decreases n
  {
    if n == 0 then g else PulsedTimes(Pulsed(g), n - 1)
  }

  /** n steps then m steps are n + m steps. */
  lemma {:induction false} PulsedTimesAdd(g: Glow, n: nat, m: nat)
    ensures PulsedTimes(PulsedTimes(g, n), m) == PulsedTimes(g, n + m)
    decreases n
  {
    if n > 0 {
      PulsedTimesAdd(Pulsed(g), n - 1, m);
    }
  }

  /** A rising glow climbs one step per frame and turns on reaching the peak. */
  lemma {:induction false} GlowRises(g: Glow, n: nat)
    requires g.rising && 0 <= g.level < GlowPeak && g.level + n <= GlowPeak
    ensures PulsedTimes(g, n) == Glow(g.level + n, g.level + n < GlowPeak)
    decreases n
  {
    if n > 0 {
      if g.level + 1 < GlowPeak {
        GlowRises(Pulsed(g), n - 1);
      }
    }
  }

  /** A falling glow drops one step per frame and turns on reaching 0. */
  lemma {:induction false} GlowFalls(g: Glow, n: nat)
    requires !g.rising && 0 < g.level && n <= g.level
    ensures PulsedTimes(g, n) == Glow(g.level - n, g.level - n <= 0)
    decreases n
  {
    if n > 0 {
      if g.level - 1 > 0 {
        GlowFalls(Pulsed(g), n - 1);
      }
    }
  }

  /** From a fresh pickup the glow reaches the peak after 20 frames and is back where it
      started after 40: a period of 40 frames. */
  lemma GlowPeriod()
    ensures PulsedTimes(Glow(0, true), GlowPeak) == Glow(GlowPeak, false)
    ensures PulsedTimes(Glow(0, true), 2 * GlowPeak) == Glow(0, true)
  {
    GlowRises(Glow(0, true), GlowPeak);
    GlowFalls(Glow(GlowPeak, false), GlowPeak);
    PulsedTimesAdd(Glow(0, true), GlowPeak, GlowPeak);
  }

  /** One frame of a pickup: it moves left by PickupSpeed and its glow takes a step. */
  function Moved(p: PowerUpView): (r: PowerUpView)
    ensures r.x == p.x - PickupSpeed && r.y == p.y && r.kind == p.kind
    ensures r.glow == Pulsed(p.glow)
  {
    PowerUpView(p.x - PickupSpeed, p.y, p.kind, Pulsed(p.glow))
  }

  /** The pickup has left the panel on the left. */
  predicate OffScreen(p: PowerUpView)
    ensures OffScreen(p) ==> PickupBox(p).x + PickupBox(p).w < 0
  {
    p.x + PickupSize < 0
  }

  /** The collision box: a 20 by 20 square at the pickup's position. */
  function PickupBox(p: PowerUpView): (b: Rect)
    ensures b == Rect(p.x, p.y, PickupSize, PickupSize)
  {
    Rect(p.x, p.y, PickupSize, PickupSize)
  }

  /** The pickup's box meets the given box; it does not matter which of the two asks. */
  predicate Collides(p: PowerUpView, box: Rect)
    ensures Collides(p, box) == Intersects(box, PickupBox(p))
  {
    Intersects(PickupBox(p), box)
  }

  /** The glow has no influence on the simulation: two pickups at the same place are off-screen
      together and meet the same boxes. */
  lemma GlowIsCosmetic(p: PowerUpView, q: PowerUpView, box: Rect)
    requires p.x == q.x && p.y == q.y
    ensures OffScreen(p) == OffScreen(q)
    ensures Collides(p, box) == Collides(q, box)
  {
  }

  /** A pickup that has left the panel can no longer be collected by a box that starts at
      column 0 or to its right. */
  lemma OffScreenMissesPanel(p: PowerUpView, box: Rect)
    requires OffScreen(p) && 0 <= box.x
    ensures !Collides(p, box)
  {
  }

  /** One pickup of the game. Its height and kind never change after construction. */
  class PowerUp {
    var x: int
    const y: int
    const kind: PowerUpType
    var glowEffect: int
    var increasing: bool

    /** The object's state as a value. */
    function View(): PowerUpView
      reads this
    {
      PowerUpView(x, y, kind, Glow(glowEffect, increasing))
    }

    constructor (startX: int, startY: int, kind: PowerUpType)
      ensures View() == Spawned(startX, startY, kind)
    {
      x := startX;
      y := startY;
      this.kind := kind;
      glowEffect := 0;
      increasing := true;
    }

    method Update()
      modifies this
      ensures View() == Moved(old(View()))
    {
      x := x - PickupSpeed;
      if increasing {
        glowEffect := glowEffect + 1;
        if glowEffect >= GlowPeak {
          increasing := false;
        }
      } else {
        glowEffect := glowEffect - 1;
        if glowEffect <= 0 {
          increasing := true;
        }
      }
    }

    function IsOffScreen(): (off: bool)
      reads this
      ensures off == OffScreen(View())
    {
      x + PickupSize < 0
    }

    /** The object's own box meets the craft's box. */
    function CollidesWith(player: Players.Player): (hit: bool)
      reads this, player
      ensures hit == Collides(View(), Players.PlayerBox(player.View()))
    {
      Intersects(Rect(x, y, PickupSize, PickupSize), player.GetBounds())
    }

    function GetType(): (t: PowerUpType)
      reads this
      ensures t == View().kind
    {
      kind
    }
  }
}
