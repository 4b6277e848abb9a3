/** Hostile entities of three kinds that drift in from the right: a drone that bounces between
    the panel edges, a hunter that steers toward the craft, and a turret that only drifts. */
module Enemies {
  import opened Geometry
  import Players

  datatype EnemyType = SecurityDrone | HunterBot | Turret

  /** Side of the square collision box of every kind. */
  const EnemySize: int := 30
  const BaseSpeed: real := 3.0
  /** Vertical speed of a hunter in pursuit. */
  const ChaseSpeed: real := BaseSpeed * 0.5

  /** The state of an enemy: position, velocity and kind. */
  datatype EnemyView = EnemyView(x: real, y: real, velocityX: real, velocityY: real, kind: EnemyType)

  /** An enemy as the constructor builds it; droneDraw is the draw for a drone's vertical speed. */
  function Spawned(startX: int, startY: int, kind: EnemyType, droneDraw: real): (e: EnemyView)
    requires 0.0 <= droneDraw < 1.0
    ensures e.x == startX as real && e.y == startY as real && e.kind == kind
    ensures e.velocityX == (if kind == HunterBot then -2.25 else -3.0)
    ensures kind == SecurityDrone ==> -1.0 <= e.velocityY < 1.0
    ensures kind != SecurityDrone ==> e.velocityY == 0.0
    ensures WellFormed(e)
  {
    match kind
    case SecurityDrone => EnemyView(startX as real, startY as real, -BaseSpeed, droneDraw * 2.0 - 1.0, kind)
    case HunterBot => EnemyView(startX as real, startY as real, -BaseSpeed * 0.75, 0.0, kind)
    case Turret => EnemyView(startX as real, startY as real, -BaseSpeed, 0.0, kind)
  }

  /** The velocities each kind can have: the horizontal one is fixed by the kind, a drone's
      vertical speed is at most 1, a hunter's is one of -1.5, 0 and 1.5, a turret's is 0. */
  predicate WellFormed(e: EnemyView)
  {
    match e.kind
    case SecurityDrone => e.velocityX == -BaseSpeed && -1.0 <= e.velocityY <= 1.0
    case HunterBot =>
      e.velocityX == -BaseSpeed * 0.75 &&
      (e.velocityY == -ChaseSpeed || e.velocityY == 0.0 || e.velocityY == ChaseSpeed)
    case Turret => e.velocityX == -BaseSpeed && e.velocityY == 0.0
  }

  /** The sign of a real as -1, 0 or 1, as Math.signum. */
  function Signum(r: real): (s: real)
    ensures s == -1.0 || s == 0.0 || s == 1.0
    ensures s * r == Abs(r) && (s == 0.0 <==> r == 0.0)
  {
    if r > 0.0 then 1.0 else if r < 0.0 then -1.0 else 0.0
  }

  /** One frame of an enemy, given the craft's height. Every kind drifts by its horizontal speed;
      a drone moves by its vertical speed and reverses it when it ends at or beyond an edge
      (its height is not clamped); a hunter sets its vertical speed to the sign of the distance
      to the craft times 1.5 and moves by it; a turret does nothing else. */
  function Moved(e: EnemyView, playerY: real): (r: EnemyView)
    ensures r.x == e.x + e.velocityX && r.velocityX == e.velocityX && r.kind == e.kind
    ensures e.kind == Turret ==> r.y == e.y && r.velocityY == e.velocityY
    ensures e.kind == HunterBot ==>
      r.y == e.y + r.velocityY &&
      (playerY > e.y ==> r.velocityY == ChaseSpeed) &&
      (playerY < e.y ==> r.velocityY == -ChaseSpeed) &&
      (playerY == e.y ==> r.velocityY == 0.0)
    ensures e.kind == SecurityDrone ==>
      r.y == e.y + e.velocityY && Abs(r.velocityY) == Abs(e.velocityY) &&
      (r.y <= 0.0 || r.y >= (PanelHeight - EnemySize) as real ==> r.velocityY == -e.velocityY) &&
      (0.0 < r.y < (PanelHeight - EnemySize) as real ==> r.velocityY == e.velocityY)
    ensures WellFormed(e) ==> WellFormed(r) && r.x <= e.x - 2.25
  {
    var x := e.x + e.velocityX;
    match e.kind
    case SecurityDrone =>
      var y := e.y + e.velocityY;
      var flip := y <= 0.0 || y >= (PanelHeight - EnemySize) as real;
      EnemyView(x, y, e.velocityX, if flip then e.velocityY * -1.0 else e.velocityY, e.kind)
    case HunterBot =>
      var v := Signum(playerY - e.y) * BaseSpeed * 0.5;
      EnemyView(x, e.y + v, e.velocityX, v, e.kind)
    case Turret =>
      e.(x := x)
  }

  /** A hunter not level with the craft ends the frame |d - 1.5| away from it, where d was the
      distance before: closer whenever it was at least 0.75 away. */
  lemma HunterPursuit(e: EnemyView, playerY: real)
    requires e.kind == HunterBot && playerY != e.y
    ensures Abs(playerY - Moved(e, playerY).y) == Abs(Abs(playerY - e.y) - ChaseSpeed)
    ensures Abs(playerY - e.y) >= 0.75 ==> Abs(playerY - Moved(e, playerY).y) <= Abs(playerY - e.y)
  {
  }

  /** The enemy has left the panel on the left. */
  predicate OffScreen(e: EnemyView)
  {
    e.x + EnemySize as real < 0.0
  }

  /** The collision box: a 30 by 30 square at the truncated position, for every kind. */
  function EnemyBox(e: EnemyView): (b: Rect)
    ensures b.w == EnemySize && b.h == EnemySize
    ensures b.x == Trunc(e.x) && b.y == Trunc(e.y)
  {
    Rect(Trunc(e.x), Trunc(e.y), EnemySize, EnemySize)
  }

  /** The enemy's box meets the given box; it does not matter which of the two asks. */
  predicate Collides(e: EnemyView, box: Rect)
    ensures Collides(e, box) == Intersects(box, EnemyBox(e))
  {
    Intersects(EnemyBox(e), box)
  }

  /** Truncation toward zero makes the box of an enemy just past the left edge start at 0:
      at x = -0.5 the box still covers columns 0 to 29. */
  lemma TruncatedBoxAtLeftEdge(e: EnemyView)
    requires -1.0 < e.x < 0.0
    ensures EnemyBox(e).x == 0 && !OffScreen(e)
  {
  }

  /** An enemy that has left the panel can no longer hit a box that starts at column 0 or to
      its right, although its box is placed at the truncated position. */
  lemma OffScreenMissesPanel(e: EnemyView, box: Rect)
    requires OffScreen(e) && 0 <= box.x
    ensures !Collides(e, box)
  {
  }

  /** One enemy of the game. Its kind and horizontal speed never change after construction. */
  class Enemy {
    var x: real
    var y: real
    const velocityX: real
    var velocityY: real
    const kind: EnemyType

    /** The object's state as a value. */
    function View(): EnemyView
      reads this
    {
      EnemyView(x, y, velocityX, velocityY, kind)
    }

    constructor (startX: int, startY: int, kind: EnemyType, droneDraw: real)
      requires 0.0 <= droneDraw < 1.0
      ensures View() == Spawned(startX, startY, kind, droneDraw)
    {
      x := startX as real;
      y := startY as real;
      this.kind := kind;
      match kind {
        case SecurityDrone =>
          velocityX := -BaseSpeed;
          velocityY := droneDraw * 2.0 - 1.0;
        case HunterBot =>
          velocityX := -BaseSpeed * 0.75;
          velocityY := 0.0;
        case Turret =>
          velocityX := -BaseSpeed;
          velocityY := 0.0;
      }
    }

    method Update(player: Players.Player)
      modifies this
      ensures View() == Moved(old(View()), player.y)
    {
      x := x + velocityX;
      match kind {
        case SecurityDrone =>
          y := y + velocityY;
          if y <= 0.0 || y >= (PanelHeight - EnemySize) as real {
            velocityY := velocityY * -1.0;
          }
        case HunterBot =>
          var dy := player.y - y;
          velocityY := Signum(dy) * BaseSpeed * 0.5;
          y := y + velocityY;
        case Turret =>
      }
    }

    function IsOffScreen(): (off: bool)
      reads this
      ensures off == OffScreen(View())
    {
      x + EnemySize as real < 0.0
    }

    /** The object's own box meets the craft's box. */
    function CollidesWith(player: Players.Player): (hit: bool)
      reads this, player
      ensures hit == Collides(View(), Players.PlayerBox(player.View()))
    {
      Intersects(Rect(Trunc(x), Trunc(y), EnemySize, EnemySize), player.GetBounds())
    }
  }
}
