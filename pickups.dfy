/**
 * `checkHeartCollection` and `checkPortal` of game.js: hearts are picked up
 * within 0.9 tiles of the player's centre, each map cell at most once per
 * level, and a portal tile in the 3 x 3 cells around the player's centre ends
 * the level.
 *
 * The collected-hearts dictionary is keyed by the string "col,row"; distinct
 * cells give distinct keys, so it is modelled as a set of cells.
 */
module Pickups {
  import opened Levels
  import opened Tilemap
  import opened PlayerPhysics
  import opened Effects

  const SCORE_HEART: int := 100
  const SCORE_LEVEL: int := 1000
  /** Pickup distance, `TS * 0.9`. */
  const PICKUP_RADIUS: real := 14.4

  /** What a heart pickup changes: the collected cells, the player's heart count, the score and the popups. */
  datatype Haul = Haul(collected: set<(int, int)>, hearts: int, score: int, popups: seq<ScorePopup>)

  /** Centre of a tile, in pixels. */
  function TileCenter(i: int): real { i as real * TS + TS / 2.0 }

  /**
   * `Math.sqrt(dx*dx + dy*dy) < TS * 0.9`, compared on squares (the square root
   * is monotone and the radius positive, so the two tests agree).
   */
  predicate InReach(p: Player, col: int, row: int)
  {
    var dx := p.x + PLAYER_W / 2.0 - TileCenter(col);
    var dy := p.y + PLAYER_H / 2.0 - TileCenter(row);
    dx * dx + dy * dy < PICKUP_RADIUS * PICKUP_RADIUS
  }

  /** A heart cell the player touches this frame. */
  predicate HeartHit(level: Level, p: Player, col: int, row: int)
  {
    GetTile(level, col, row) == 'H' && InReach(p, col, row)
  }

  /** One scanned cell: a touched heart not yet collected is taken, worth `SCORE_HEART`, with a popup. */
  function TryCollect(level: Level, p: Player, h: Haul, col: int, row: int): Haul
  {
    if HeartHit(level, p, col, row) && (col, row) !in h.collected then
      Haul(h.collected + {(col, row)}, h.hearts + 1, h.score + SCORE_HEART,
           h.popups + [ScorePopup(SCORE_HEART, TileCenter(col), TileCenter(row), 35.0, 35.0)])
    else h
  }

  function ScanCols(level: Level, p: Player, h: Haul, row: int, left: int, end: int): Haul
    decreases end - left
  {
    if end <= left then h else TryCollect(level, p, ScanCols(level, p, h, row, left, end - 1), end - 1, row)
  }

  function ScanRows(level: Level, p: Player, h: Haul, top: int, end: int, left: int, right: int): Haul
    decreases end - top
  {
    if end <= top then h else ScanCols(level, p, ScanRows(level, p, h, top, end - 1, left, right), end - 1, left, right + 1)
  }

  /** The scan window: one tile beyond the player's box on every side. */
  function WindowLeft(p: Player): int { (p.x / TS).Floor - 1 }
  function WindowRight(p: Player): int { ((p.x + PLAYER_W) / TS).Floor + 1 }
  function WindowTop(p: Player): int { (p.y / TS).Floor - 1 }
  function WindowBottom(p: Player): int { ((p.y + PLAYER_H) / TS).Floor + 1 }

  /** `checkHeartCollection` as a function of the player and the haul so far. */
  function CollectHearts(level: Level, p: Player, h: Haul): Haul
  {
    ScanRows(level, p, h, WindowTop(p), WindowBottom(p) + 1, WindowLeft(p), WindowRight(p))
  }

  /** The touched hearts in columns `[left, end)` of one row. */
  function RowHits(level: Level, p: Player, row: int, left: int, end: int): set<(int, int)>
  {
    set c | left <= c < end && HeartHit(level, p, c, row) :: (c, row)
  }

  /** The touched hearts in rows `[top, end)` and columns `[left, right]`. */
  function Hits(level: Level, p: Player, top: int, end: int, left: int, right: int): set<(int, int)>
  {
    set r, c | top <= r < end && left <= c <= right && HeartHit(level, p, c, r) :: (c, r)
  }

  /** A haul grows by exactly the new cells: one heart, `SCORE_HEART` and one popup each. */
  predicate Gains(h: Haul, r: Haul, found: set<(int, int)>)
  {
    && r.collected == h.collected + found
    && r.hearts == h.hearts + |r.collected| - |h.collected|
    && r.score == h.score + SCORE_HEART * (r.hearts - h.hearts)
    && |r.popups| == |h.popups| + (r.hearts - h.hearts)
    && h.popups <= r.popups
  }

  lemma TryCollectGains(level: Level, p: Player, h: Haul, col: int, row: int)
    ensures Gains(h, TryCollect(level, p, h, col, row), if HeartHit(level, p, col, row) then {(col, row)} else {})
  {
    var r := TryCollect(level, p, h, col, row);
    if HeartHit(level, p, col, row) && (col, row) !in h.collected {
      assert h.popups <= r.popups;
    } else if HeartHit(level, p, col, row) {
      assert h.collected + {(col, row)} == h.collected;
    } else {
      assert h.collected + {} == h.collected;
    }
  }

  lemma GainsCompose(a: Haul, b: Haul, c: Haul, f1: set<(int, int)>, f2: set<(int, int)>)
    requires Gains(a, b, f1) && Gains(b, c, f2)
    ensures Gains(a, c, f1 + f2)
  {
  }

  lemma {:induction false} ScanColsGains(level: Level, p: Player, h: Haul, row: int, left: int, end: int)
    ensures Gains(h, ScanCols(level, p, h, row, left, end), RowHits(level, p, row, left, end))
    decreases end - left
  {
    if end <= left {
      assert RowHits(level, p, row, left, end) == {};
      assert h.collected + {} == h.collected;
    } else {
      var mid := ScanCols(level, p, h, row, left, end - 1);
      ScanColsGains(level, p, h, row, left, end - 1);
      TryCollectGains(level, p, mid, end - 1, row);
      var last := if HeartHit(level, p, end - 1, row) then {(end - 1, row)} else {};
      GainsCompose(h, mid, TryCollect(level, p, mid, end - 1, row), RowHits(level, p, row, left, end - 1), last);
      RowHitsStep(level, p, row, left, end);
    }
  }

  lemma RowHitsStep(level: Level, p: Player, row: int, left: int, end: int)
    requires left < end
    ensures RowHits(level, p, row, left, end) ==
            RowHits(level, p, row, left, end - 1) + (if HeartHit(level, p, end - 1, row) then {(end - 1, row)} else {})
  {
  }

  lemma HitsStep(level: Level, p: Player, top: int, end: int, left: int, right: int)
    requires top < end
    ensures Hits(level, p, top, end, left, right) ==
            Hits(level, p, top, end - 1, left, right) + RowHits(level, p, end - 1, left, right + 1)
  {
  }

  lemma {:induction false} ScanRowsGains(level: Level, p: Player, h: Haul, top: int, end: int, left: int, right: int)
    ensures Gains(h, ScanRows(level, p, h, top, end, left, right), Hits(level, p, top, end, left, right))
    decreases end - top
  {
    if end <= top {
      assert Hits(level, p, top, end, left, right) == {};
      assert h.collected + {} == h.collected;
    } else {
      var mid := ScanRows(level, p, h, top, end - 1, left, right);
      ScanRowsGains(level, p, h, top, end - 1, left, right);
      ScanColsGains(level, p, mid, end - 1, left, right + 1);
      GainsCompose(h, mid, ScanCols(level, p, mid, end - 1, left, right + 1),
                   Hits(level, p, top, end - 1, left, right), RowHits(level, p, end - 1, left, right + 1));
      HitsStep(level, p, top, end, left, right);
    }
  }

  /** A tile centre within the pickup radius of the player's centre lies inside the scan window. */
  lemma ReachInWindow(p: Player, col: int, row: int)
    requires InReach(p, col, row)
    ensures WindowLeft(p) <= col <= WindowRight(p)
    ensures WindowTop(p) <= row <= WindowBottom(p)
  {
    var dx := p.x + PLAYER_W / 2.0 - TileCenter(col);
    var dy := p.y + PLAYER_H / 2.0 - TileCenter(row);
    assert dx * dx < PICKUP_RADIUS * PICKUP_RADIUS by {
      assert dy * dy >= 0.0;
    }
    SquareBound(dx);
    SquareBound(dy);
  }

  /** A square below the squared radius bounds the value itself. */
  lemma SquareBound(d: real)
    ensures d * d < PICKUP_RADIUS * PICKUP_RADIUS ==> -PICKUP_RADIUS < d < PICKUP_RADIUS
  {
    if d >= PICKUP_RADIUS {
      assert d * d >= PICKUP_RADIUS * d >= PICKUP_RADIUS * PICKUP_RADIUS;
    } else if d <= -PICKUP_RADIUS {
      assert d * d >= -PICKUP_RADIUS * d >= PICKUP_RADIUS * PICKUP_RADIUS;
    }
  }

  /**
   * After a pickup check, a cell is collected exactly when it was collected
   * before or is a heart within reach; each newly taken heart adds one to the
   * count, `SCORE_HEART` to the score and one popup, and earlier popups stay.
   */
  lemma CollectHeartsOutcome(level: Level, p: Player, h: Haul)
    ensures var r := CollectHearts(level, p, h);
      && (forall col, row :: (col, row) in r.collected <==>
            (col, row) in h.collected || HeartHit(level, p, col, row))
      && r.hearts == h.hearts + |r.collected - h.collected|
      && r.score == h.score + SCORE_HEART * |r.collected - h.collected|
      && |r.popups| == |h.popups| + |r.collected - h.collected|
      && h.popups <= r.popups
  {
    var r := CollectHearts(level, p, h);
    var hits := Hits(level, p, WindowTop(p), WindowBottom(p) + 1, WindowLeft(p), WindowRight(p));
    ScanRowsGains(level, p, h, WindowTop(p), WindowBottom(p) + 1, WindowLeft(p), WindowRight(p));
    forall col, row | HeartHit(level, p, col, row)
      ensures (col, row) in hits
    {
      ReachInWindow(p, col, row);
    }
    assert |r.collected| == |h.collected| + |r.collected - h.collected| by {
      assert r.collected == h.collected + (r.collected - h.collected);
      assert h.collected * (r.collected - h.collected) == {};
    }
  }

  /** The nested loops of `checkHeartCollection`, row by row and column by column. */
  method CheckHeartCollection(level: Level, p: Player, h: Haul) returns (r: Haul)
    ensures r == CollectHearts(level, p, h)
  {
    var top, bottom := WindowTop(p), WindowBottom(p);
    var left, right := WindowLeft(p), WindowRight(p);
    r := h;
    var row := top;
    while row <= bottom
      invariant top <= row || bottom < top
      invariant row <= bottom + 1 || bottom < top
      invariant bottom < top ==> row == top
      invariant r == ScanRows(level, p, h, top, row, left, right)
      decreases bottom - row
    {
      var col := left;
      ghost var atRowStart := r;
      while col <= right
        invariant left <= col || right < left
        invariant col <= right + 1 || right < left
        invariant right < left ==> col == left
        invariant r == ScanCols(level, p, atRowStart, row, left, col)
        decreases right - col
      {
        r := TryCollect(level, p, r, col, row);
        col := col + 1;
      }
      assert r == ScanCols(level, p, atRowStart, row, left, right + 1);
      row := row + 1;
    }
  }

  // ---------------- portal ----------------

  /** Column and row of the player's centre. */
  function CenterCol(p: Player): int { ((p.x + PLAYER_W / 2.0) / TS).Floor }
  function CenterRow(p: Player): int { ((p.y + PLAYER_H / 2.0) / TS).Floor }

  predicate PortalAt(level: Level, col: int, row: int)
  {
    GetTile(level, col, row) == 'P'
  }

  /** A portal tile in the 3 x 3 block around the player's centre cell. */
  predicate PortalNear(level: Level, p: Player)
  {
    exists col, row :: CenterCol(p) - 1 <= col <= CenterCol(p) + 1 &&
                       CenterRow(p) - 1 <= row <= CenterRow(p) + 1 && PortalAt(level, col, row)
  }

  /** `checkPortal`'s scan, stopping at the first portal tile; true means the level is complete. */
  method CheckPortal(level: Level, p: Player) returns (found: bool)
    ensures found <==> PortalNear(level, p)
  {
    var col, row := CenterCol(p), CenterRow(p);
    var dr := -1;
    while dr <= 1
      invariant -1 <= dr <= 2
      invariant forall r, c :: row - 1 <= r < row + dr && col - 1 <= c <= col + 1 ==> !PortalAt(level, c, r)
    {
      var dc := -1;
      var r := row + dr;
      while dc <= 1
        invariant -1 <= dc <= 2
        invariant forall r, c :: row - 1 <= r < row + dr && col - 1 <= c <= col + 1 ==> !PortalAt(level, c, r)
        invariant forall c :: col - 1 <= c < col + dc ==> !PortalAt(level, c, r)
      {
        if GetTile(level, col + dc, r) == 'P' {
          assert PortalAt(level, col + dc, r);
          return true;
        }
        dc := dc + 1;
      }
      dr := dr + 1;
    }
    return false;
  }
}
