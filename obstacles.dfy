/** An obstacle: a pair of walls, one hanging from the top and one standing on the bottom,
    with a gap between them, scrolling left at a fixed speed. */
module Obstacles {
  import opened Geometry
  import Players

  const ObstacleWidth: int := 80
  const ScrollSpeed: int := 3
  const MinGap: int := 150
  const MaxGap: int := 200
  const NarrowGap: int := 120
  /** Least height of either wall. */
  const Margin: int := 50

  /** The state of an obstacle: left edge, top of the gap and height of the gap. */
  datatype ObstacleView = ObstacleView(x: int, gapY: int, gapHeight: int)

  /** Gap heights the constructor can choose. */
  predicate GapHeightOk(h: int)
  {
    h == NarrowGap || MinGap <= h < MaxGap
  }

  /** Every obstacle the constructor builds has an admissible gap with walls of at least Margin. */
  predicate WellFormed(o: ObstacleView)
  {
    GapHeightOk(o.gapHeight) && Margin <= o.gapY && o.gapY + o.gapHeight <= PanelHeight - Margin
  }

  /** The gap height: fixed when narrow, otherwise drawn from [MinGap, MaxGap). */
  function GapHeight(narrow: bool, draw: real): (h: int)
    requires 0.0 <= draw < 1.0
    ensures narrow ==> h == NarrowGap
    ensures !narrow ==> MinGap <= h < MaxGap
  {
    if narrow then NarrowGap else MinGap + Trunc(draw * (MaxGap - MinGap) as real)
  }

  /** For 0 <= draw < 1 and a positive range, the truncated product lies in [0, range). */
  lemma ScaledDraw(draw: real, range: int)
    requires 0.0 <= draw < 1.0 && 0 < range
    ensures 0 <= Trunc(draw * range as real) < range
  {
    assert draw * range as real < range as real;
  }

  /** The top of the gap: a draw when no position is forced (forcedY < 0), otherwise forcedY
      clamped so that both walls keep at least Margin. */
  function GapPosition(forcedY: int, gapHeight: int, draw: real): (y: int)
    requires 0.0 <= draw < 1.0 && GapHeightOk(gapHeight)
    ensures Margin <= y && y + gapHeight <= PanelHeight - Margin
    ensures forcedY < 0 ==> y + gapHeight < PanelHeight - Margin
    ensures 0 <= forcedY < Margin ==> y == Margin
    ensures Margin <= forcedY <= PanelHeight - gapHeight - Margin ==> y == forcedY
    ensures PanelHeight - gapHeight - Margin < forcedY ==> y == PanelHeight - gapHeight - Margin
  {
    if forcedY < 0 then
      ScaledDraw(draw, PanelHeight - gapHeight - 2 * Margin);
      Margin + Trunc(draw * (PanelHeight - gapHeight - 2 * Margin) as real)
    else
      var low := if Margin < forcedY then forcedY else Margin;
      if low < PanelHeight - gapHeight - Margin then low else PanelHeight - gapHeight - Margin
  }

  /** An obstacle as the full constructor builds it; a negative forcedY means "draw the position". */
  function Spawn(startX: int, forcedY: int, narrow: bool, gapDraw: real, posDraw: real): (o: ObstacleView)
    requires 0.0 <= gapDraw < 1.0 && 0.0 <= posDraw < 1.0
    ensures WellFormed(o) && o.x == startX
    ensures narrow ==> o.gapHeight == NarrowGap
    ensures !narrow ==> MinGap <= o.gapHeight < MaxGap
    ensures forcedY < 0 ==> o.gapY + o.gapHeight < PanelHeight - Margin
    ensures forcedY >= 0 && Margin <= forcedY <= PanelHeight - o.gapHeight - Margin ==> o.gapY == forcedY
  {
    var h := GapHeight(narrow, gapDraw);
    ObstacleView(startX, GapPosition(forcedY, h, posDraw), h)
  }

  /** One frame: the obstacle moves left by ScrollSpeed and nothing else changes. */
  function Scrolled(o: ObstacleView): (r: ObstacleView)
    ensures r.x == o.x - ScrollSpeed && r.(x := o.x) == o
    ensures WellFormed(o) ==> WellFormed(r)
  {
    o.(x := o.x - ScrollSpeed)
  }

  /** The obstacle has left the panel on the left: both its walls end left of column 0. */
  predicate OffScreen(o: ObstacleView)
    ensures OffScreen(o) ==> TopBand(o).x + TopBand(o).w < 0 && BottomBand(o).x + BottomBand(o).w < 0
  {
    o.x + ObstacleWidth < 0
  }

  /** The obstacle after n frames. */
  function ScrolledTimes(o: ObstacleView, n: nat): ObstacleView
    decreases n
  {
    if n == 0 then o else ScrolledTimes(Scrolled(o), n - 1)
  }

  /** After n frames the obstacle has moved exactly 3n to the left and is otherwise the same. */
  lemma {:induction false} ScrolledTimesMoves(o: ObstacleView, n: nat)
    ensures ScrolledTimes(o, n) == o.(x := o.x - ScrollSpeed * n)
    decreases n
  {
    if n > 0 {
      ScrolledTimesMoves(Scrolled(o), n - 1);
    }
  }

  /** Once off-screen, an obstacle stays off-screen, and one that starts at the right edge
      of the panel first leaves it after 294 frames. */
  lemma OffScreenTiming(o: ObstacleView, n: nat)
    ensures OffScreen(ScrolledTimes(o, n)) <==> o.x - ScrollSpeed * n + ObstacleWidth < 0
    ensures OffScreen(o) ==> OffScreen(ScrolledTimes(o, n))
    ensures o.x == PanelWidth ==> (OffScreen(ScrolledTimes(o, n)) <==> n >= 294)
  {
    ScrolledTimesMoves(o, n);
  }

  /** The wall hanging from the top of the panel: the obstacle's columns, from row 0 down to
      the top of the gap. */
  function TopBand(o: ObstacleView): (b: Rect)
    ensures b.x == o.x && b.w == ObstacleWidth
    ensures b.y == 0 && b.y + b.h == o.gapY
  {
    Rect(o.x, 0, ObstacleWidth, o.gapY)
  }

  /** The wall standing on the bottom of the panel: the obstacle's columns, from the bottom of
      the gap down to the panel's last row. */
  function BottomBand(o: ObstacleView): (b: Rect)
    ensures b.x == o.x && b.w == ObstacleWidth
    ensures b.y == o.gapY + o.gapHeight && b.y + b.h == PanelHeight
  {
    Rect(o.x, o.gapY + o.gapHeight, ObstacleWidth, PanelHeight - (o.gapY + o.gapHeight))
  }

  /** Both walls of a well-formed obstacle are at least Margin high, and with the gap they fill the panel. */
  lemma BandsSolid(o: ObstacleView)
    requires WellFormed(o)
    ensures TopBand(o).h >= Margin && BottomBand(o).h >= Margin
    ensures TopBand(o).h + o.gapHeight + BottomBand(o).h == PanelHeight
  {
  }

  /** A box hits the obstacle when it meets either wall. */
  predicate Collides(o: ObstacleView, box: Rect)
    ensures Collides(o, box) ==> !box.IsEmpty() && box.x < o.x + ObstacleWidth && o.x < box.x + box.w
  {
    Intersects(box, TopBand(o)) || Intersects(box, BottomBand(o))
  }

  /** For a well-formed obstacle, a box hits exactly when it overlaps the obstacle's columns and
      reaches above the gap (but below the panel top) or below it (but above the panel bottom).
      In particular a box horizontally clear of the walls, or lying within the gap, never hits. */
  lemma CollidesIff(o: ObstacleView, box: Rect)
    requires WellFormed(o)
    ensures Collides(o, box) <==>
      !box.IsEmpty() && box.x < o.x + ObstacleWidth && o.x < box.x + box.w &&
      ((box.y < o.gapY && 0 < box.y + box.h) ||
       (o.gapY + o.gapHeight < box.y + box.h && box.y < PanelHeight))
    ensures box.x + box.w <= o.x || o.x + ObstacleWidth <= box.x ==> !Collides(o, box)
    ensures o.gapY <= box.y && box.y + box.h <= o.gapY + o.gapHeight ==> !Collides(o, box)
  {
  }

  /** An obstacle that has left the panel can no longer hit a box that starts at column 0 or
      to its right: its walls end left of the panel. */
  lemma OffScreenMissesPanel(o: ObstacleView, box: Rect)
    requires OffScreen(o) && 0 <= box.x
    ensures !Collides(o, box)
  {
  }

  /** One obstacle of the game. Its gap never changes after construction. */
  class Obstacle {
    var x: int
    const gapHeight: int
    const gapY: int

    /** The object's state as a value. */
    function View(): ObstacleView
      reads this
    {
      ObstacleView(x, gapY, gapHeight)
    }

    /** The full constructor: a negative forcedY draws the gap position, narrow fixes the gap height. */
    constructor (startX: int, forcedY: int, narrow: bool, gapDraw: real, posDraw: real)
      requires 0.0 <= gapDraw < 1.0 && 0.0 <= posDraw < 1.0
      ensures View() == Spawn(startX, forcedY, narrow, gapDraw, posDraw)
    {
      x := startX;
      var h := GapHeight(narrow, gapDraw);
      gapHeight := h;
      gapY := GapPosition(forcedY, h, posDraw);
    }

    /** The one-argument constructor: a drawn gap height and a drawn position. */
    constructor Unforced(startX: int, gapDraw: real, posDraw: real)
      requires 0.0 <= gapDraw < 1.0 && 0.0 <= posDraw < 1.0
      ensures View() == Spawn(startX, -1, false, gapDraw, posDraw)
    {
      x := startX;
      var h := GapHeight(false, gapDraw);
      gapHeight := h;
      gapY := GapPosition(-1, h, posDraw);
    }

    method Update()
      modifies this
      ensures View() == Scrolled(old(View()))
    {
      x := x - ScrollSpeed;
    }

    function IsOffScreen(): (off: bool)
      reads this
      ensures off == OffScreen(View())
    {
      x + ObstacleWidth < 0
    }

    /** The craft's box meets the top wall or the bottom wall. */
    function CollidesWith(player: Players.Player): (hit: bool)
      reads this, player
      ensures hit == Collides(View(), Players.PlayerBox(player.View()))
    {
      var bounds := player.GetBounds();
      Intersects(bounds, Rect(x, 0, ObstacleWidth, gapY)) ||
      Intersects(bounds, Rect(x, gapY + gapHeight, ObstacleWidth, PanelHeight - (gapY + gapHeight)))
    }
  }
}
