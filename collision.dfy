/**
 * Axis-separated collision of the player's box against the tile grid
 * (game.js `resolveCollisionX`, `resolveCollisionY` and the vertical
 * sub-stepping in `updatePlayer`).
 *
 * Both resolvers compute the box's tile range once, from the position on
 * entry, then visit its cells row by row, left to right, letting every solid
 * cell act on the current position and velocity. The scans are specified by
 * left folds over that cell order (`ScanX`, `ScanY`).
 */
module Collision {
  import opened Wrappers
  import opened Levels
  import opened Tilemap

  /** Position and velocity along the horizontal axis. */
  datatype Horizontal = Horizontal(pos: real, vel: real)
  /** Position and velocity along the vertical axis, and `onGround`. */
  datatype Vertical = Vertical(pos: real, vel: real, grounded: bool)

  /** Tile columns and rows covered by the player's box whose top-left corner is at (x, y). */
  function LeftCol(x: real): int { (x / TS).Floor }
  function RightCol(x: real): int { ((x + PLAYER_W - 1.0) / TS).Floor }
  function TopRow(y: real): int { (y / TS).Floor }
  function BottomRow(y: real): int { ((y + PLAYER_H - 1.0) / TS).Floor }

  lemma BoxIsNonEmpty(x: real, y: real)
    ensures LeftCol(x) <= RightCol(x) && TopRow(y) <= BottomRow(y)
  {
    assert x / TS <= (x + PLAYER_W - 1.0) / TS;
    assert y / TS <= (y + PLAYER_H - 1.0) / TS;
  }

  // ----------------------------------------------------------------
  // Horizontal resolution
  // ----------------------------------------------------------------

  /** The effect of one cell (col, row) on the horizontal state. */
  function StepX(level: Level, s: Horizontal, col: int, row: int): Horizontal
  {
    if !IsSolid(level, col, row) then s
    else if s.vel > 0.0 then Horizontal(col as real * TS - PLAYER_W, 0.0)
    else if s.vel < 0.0 then Horizontal((col + 1) as real * TS, 0.0)
    else
      var overlapLeft := (s.pos + PLAYER_W) - col as real * TS;
      var overlapRight := (col + 1) as real * TS - s.pos;
      if overlapLeft < overlapRight then Horizontal(col as real * TS - PLAYER_W, s.vel)
      else Horizontal((col + 1) as real * TS, s.vel)
  }

  /** The player's span [pos, pos + PLAYER_W) touches column `col` only from outside. */
  predicate FlushWith(pos: real, col: int)
  {
    pos == col as real * TS - PLAYER_W || pos == (col + 1) as real * TS
  }

  /**
   * A solid cell pushes the player out of its column: the new span is flush with
   * one side of the cell, on the side the player was moving from (or, at rest, the
   * side of the smaller overlap), and a moving player stops.
   */
  lemma StepXPushesOut(level: Level, s: Horizontal, col: int, row: int)
    requires IsSolid(level, col, row)
    ensures var r := StepX(level, s, col, row);
      && FlushWith(r.pos, col)
      && r.vel == 0.0
      && (s.vel > 0.0 ==> r.pos + PLAYER_W == col as real * TS)
      && (s.vel < 0.0 ==> r.pos == (col + 1) as real * TS)
      && (s.vel == 0.0 ==> (r.pos + PLAYER_W == col as real * TS <==>
                             (s.pos + PLAYER_W) - col as real * TS < (col + 1) as real * TS - s.pos))
  {
  }

  /** Cells (left .. end-1, row) visited in order. */
  function ScanColsX(level: Level, s: Horizontal, row: int, left: int, end: int): Horizontal
    decreases end - left
  {
    if end <= left then s else StepX(level, ScanColsX(level, s, row, left, end - 1), end - 1, row)
  }

  /** Rows top .. end-1, each over columns left .. right. */
  function ScanX(level: Level, s: Horizontal, top: int, end: int, left: int, right: int): Horizontal
    decreases end - top
  {
    if end <= top then s
    else ScanColsX(level, ScanX(level, s, top, end - 1, left, right), end - 1, left, right + 1)
  }

  /** `resolveCollisionX()` with the player's top edge at `y`. */
  function ResolveX(level: Level, s: Horizontal, y: real): Horizontal
  {
    ScanX(level, s, TopRow(y), BottomRow(y) + 1, LeftCol(s.pos), RightCol(s.pos))
  }

  /** Some solid cell in rows top .. end-1 and columns left .. right. */
  predicate AnySolid(level: Level, top: int, end: int, left: int, right: int)
  {
    exists r, c :: top <= r < end && left <= c <= right && IsSolid(level, c, r)
  }

  lemma {:induction false} ScanColsXFacts(level: Level, s: Horizontal, row: int, left: int, end: int)
    ensures var r := ScanColsX(level, s, row, left, end);
      && ((forall c :: left <= c < end ==> !IsSolid(level, c, row)) ==> r == s)
      && (s.vel == 0.0 ==> r.vel == 0.0)
      && ((exists c :: left <= c < end && IsSolid(level, c, row)) ==>
            r.vel == 0.0 && exists c :: left <= c < end && IsSolid(level, c, row) && FlushWith(r.pos, c))
    decreases end - left
  {
    if end > left {
      var prev := ScanColsX(level, s, row, left, end - 1);
      ScanColsXFacts(level, s, row, left, end - 1);
      if IsSolid(level, end - 1, row) {
        StepXPushesOut(level, prev, end - 1, row);
      } else if exists c :: left <= c < end && IsSolid(level, c, row) {
        var c :| left <= c < end && IsSolid(level, c, row);
        assert c < end - 1;
      }
    }
  }

  lemma {:induction false} ScanXFacts(level: Level, s: Horizontal, top: int, end: int, left: int, right: int)
    ensures var r := ScanX(level, s, top, end, left, right);
      && (!AnySolid(level, top, end, left, right) ==> r == s)
      && (s.vel == 0.0 ==> r.vel == 0.0)
      && (AnySolid(level, top, end, left, right) ==>
            r.vel == 0.0 &&
            exists row, c :: top <= row < end && left <= c <= right && IsSolid(level, c, row) && FlushWith(r.pos, c))
    decreases end - top
  {
    if end > top {
      var prev := ScanX(level, s, top, end - 1, left, right);
      var r := ScanColsX(level, prev, end - 1, left, right + 1);
      ScanXFacts(level, s, top, end - 1, left, right);
      ScanColsXFacts(level, prev, end - 1, left, right + 1);
      var last := end - 1;
      if exists c :: left <= c < right + 1 && IsSolid(level, c, last) {
        var c :| left <= c < right + 1 && IsSolid(level, c, last) && FlushWith(r.pos, c);
        assert AnySolid(level, top, end, left, right);
      } else {
        assert r == prev;
        if AnySolid(level, top, end, left, right) {
          var row, c :| top <= row < end && left <= c <= right && IsSolid(level, c, row);
          assert row < end - 1;
          assert AnySolid(level, top, end - 1, left, right);
          var row', c' :| top <= row' < end - 1 && left <= c' <= right && IsSolid(level, c', row') && FlushWith(r.pos, c');
        }
      }
    }
  }

  /**
   * What `resolveCollisionX` guarantees: with no solid cell under the box nothing
   * changes; otherwise `vx` ends 0 and the player ends flush against a side of one
   * of the solid cells the box covered.
   */
  lemma ResolveXOutcome(level: Level, s: Horizontal, y: real)
    ensures var r := ResolveX(level, s, y);
      var top, bottom, left, right := TopRow(y), BottomRow(y), LeftCol(s.pos), RightCol(s.pos);
      && (!AnySolid(level, top, bottom + 1, left, right) ==> r == s)
      && (AnySolid(level, top, bottom + 1, left, right) ==>
            r.vel == 0.0 &&
            exists row, c :: top <= row <= bottom && left <= c <= right && IsSolid(level, c, row) && FlushWith(r.pos, c))
  {
    ScanXFacts(level, s, TopRow(y), BottomRow(y) + 1, LeftCol(s.pos), RightCol(s.pos));
  }

  /** The nested row/column loops of `resolveCollisionX`. */
  method ResolveCollisionX(level: Level, x: real, vx: real, y: real) returns (x': real, vx': real)
    ensures Horizontal(x', vx') == ResolveX(level, Horizontal(x, vx), y)
  {
    var left, right := LeftCol(x), RightCol(x);
    var top, bottom := TopRow(y), BottomRow(y);
    BoxIsNonEmpty(x, y);
    var s := Horizontal(x, vx);
    var row := top;
    while row <= bottom
      invariant top <= row <= bottom + 1
      invariant s == ScanX(level, Horizontal(x, vx), top, row, left, right)
    {
      var col := left;
      ghost var atRowStart := s;
      while col <= right
        invariant left <= col <= right + 1
        invariant s == ScanColsX(level, atRowStart, row, left, col)
      {
        s := StepX(level, s, col, row);
        col := col + 1;
      }
      row := row + 1;
    }
    x', vx' := s.pos, s.vel;
  }

  // ----------------------------------------------------------------
  // Vertical resolution
  // ----------------------------------------------------------------

  /** The effect of one cell of row `row` on the vertical state. */
  function StepY(level: Level, s: Vertical, col: int, row: int): Vertical
  {
    if !IsSolid(level, col, row) then s
    else if s.vel > 0.0 then Vertical(row as real * TS - PLAYER_H, 0.0, true)
    else if s.vel < 0.0 then Vertical((row + 1) as real * TS, 0.0, s.grounded)
    else s
  }

  function ScanColsY(level: Level, s: Vertical, row: int, left: int, end: int): Vertical
    decreases end - left
  {
    if end <= left then s else StepY(level, ScanColsY(level, s, row, left, end - 1), end - 1, row)
  }

  function ScanY(level: Level, s: Vertical, top: int, end: int, left: int, right: int): Vertical
    decreases end - top
  {
    if end <= top then s
    else ScanColsY(level, ScanY(level, s, top, end - 1, left, right), end - 1, left, right + 1)
  }

  /** `resolveCollisionY()` with the player's left edge at `x`: clears `onGround`, then scans. */
  function ResolveY(level: Level, x: real, s: Vertical): Vertical
  {
    ScanY(level, s.(grounded := false), TopRow(s.pos), BottomRow(s.pos) + 1, LeftCol(x), RightCol(x))
  }

  /** Whether row `row` has a solid cell among columns left .. end-1. */
  function SolidInRow(level: Level, row: int, left: int, end: int): (b: bool)
    ensures b <==> exists c :: left <= c < end && IsSolid(level, c, row)
    decreases end - left
  {
    if end <= left then false else SolidInRow(level, row, left, end - 1) || IsSolid(level, end - 1, row)
  }

  /** Whether row `row` has a solid cell among columns left .. right. */
  predicate RowBlocked(level: Level, row: int, left: int, right: int)
  {
    SolidInRow(level, row, left, right + 1)
  }

  /** The first row in top .. end-1 having a solid cell among columns left .. right. */
  function FirstSolidRow(level: Level, top: int, end: int, left: int, right: int): (r: Option<int>)
    ensures r.Some? ==> top <= r.value < end && RowBlocked(level, r.value, left, right)
    ensures r.Some? ==> forall row :: top <= row < r.value ==> !RowBlocked(level, row, left, right)
    ensures r.None? ==> forall row :: top <= row < end ==> !RowBlocked(level, row, left, right)
    decreases end - top
  {
    if end <= top then None
    else match FirstSolidRow(level, top, end - 1, left, right)
      case Some(row) => Some(row)
      case None => if SolidInRow(level, end - 1, left, right + 1) then Some(end - 1) else None
  }

  /** The effect of a contact with row `row`, whatever cell of the row is hit. */
  function ContactY(s: Vertical, row: int): Vertical
  {
    if s.vel > 0.0 then Vertical(row as real * TS - PLAYER_H, 0.0, true)
    else if s.vel < 0.0 then Vertical((row + 1) as real * TS, 0.0, s.grounded)
    else s
  }

  lemma {:induction false} ScanColsYFirst(level: Level, s: Vertical, row: int, left: int, end: int)
    ensures ScanColsY(level, s, row, left, end) ==
              if SolidInRow(level, row, left, end) then ContactY(s, row) else s
    decreases end - left
  {
    if end > left {
      ScanColsYFirst(level, s, row, left, end - 1);
    }
  }

  lemma {:induction false} ScanYFirst(level: Level, s: Vertical, top: int, end: int, left: int, right: int)
    ensures ScanY(level, s, top, end, left, right) ==
              match FirstSolidRow(level, top, end, left, right)
              case None => s
              case Some(row) => ContactY(s, row)
    decreases end - top
  {
    if end > top {
      var prev := ScanY(level, s, top, end - 1, left, right);
      ScanYFirst(level, s, top, end - 1, left, right);
      ScanColsYFirst(level, prev, end - 1, left, right + 1);
    }
  }

  /**
   * What `resolveCollisionY` guarantees. The first row (from the top of the box)
   * holding a solid cell under the player's columns decides everything: moving
   * down, the player lands on it (`y = row*TS - PLAYER_H`, `vy = 0`, grounded);
   * moving up, the head stops under it (`y = (row+1)*TS`, `vy = 0`, not grounded);
   * otherwise only `onGround` is cleared. Grounded holds exactly after a downward contact.
   */
  lemma ResolveYOutcome(level: Level, x: real, s: Vertical)
    ensures var r := ResolveY(level, x, s);
      var first := FirstSolidRow(level, TopRow(s.pos), BottomRow(s.pos) + 1, LeftCol(x), RightCol(x));
      && (first.None? || s.vel == 0.0 ==> r == Vertical(s.pos, s.vel, false))
      && (first.Some? && s.vel > 0.0 ==> r == Vertical(first.value as real * TS - PLAYER_H, 0.0, true))
      && (first.Some? && s.vel < 0.0 ==> r == Vertical((first.value + 1) as real * TS, 0.0, false))
      && (r.grounded <==> first.Some? && s.vel > 0.0)
  {
    ScanYFirst(level, s.(grounded := false), TopRow(s.pos), BottomRow(s.pos) + 1, LeftCol(x), RightCol(x));
  }

  /** After a landing or a head bump the box no longer reaches the row it hit. */
  lemma ContactClearsRow(s: Vertical, row: int)
    requires s.vel != 0.0
    ensures s.vel > 0.0 ==> BottomRow(ContactY(s, row).pos) == row - 1
    ensures s.vel < 0.0 ==> TopRow(ContactY(s, row).pos) == row + 1
  {
    var r := ContactY(s, row);
    if s.vel > 0.0 {
      assert (r.pos + PLAYER_H - 1.0) / TS == row as real - 1.0 / TS;
    } else {
      assert r.pos / TS == (row + 1) as real;
    }
  }

  /** The nested row/column loops of `resolveCollisionY`. */
  method ResolveCollisionY(level: Level, x: real, s: Vertical) returns (r: Vertical)
    ensures r == ResolveY(level, x, s)
  {
    var left, right := LeftCol(x), RightCol(x);
    var top, bottom := TopRow(s.pos), BottomRow(s.pos);
    BoxIsNonEmpty(x, s.pos);
    r := s.(grounded := false);
    var row := top;
    while row <= bottom
      invariant top <= row <= bottom + 1
      invariant r == ScanY(level, s.(grounded := false), top, row, left, right)
    {
      var col := left;
      ghost var atRowStart := r;
      while col <= right
        invariant left <= col <= right + 1
        invariant r == ScanColsY(level, atRowStart, row, left, col)
      {
        r := StepY(level, r, col, row);
        col := col + 1;
      }
      row := row + 1;
    }
  }

  // ----------------------------------------------------------------
  // Vertical sub-stepping
  // ----------------------------------------------------------------

  /** `Math.ceil`. */
  function Ceil(a: real): int
  {
    -((-a).Floor)
  }

  /** `Math.max(1, Math.ceil(Math.abs(vyStep) / (TS * 0.8)))`: sub-steps of at most 0.8 tile. */
  function SubstepCount(vyStep: real): (n: int)
    ensures n >= 1
    ensures (if vyStep < 0.0 then -vyStep else vyStep) <= n as real * (TS * 0.8)
  {
    var a := if vyStep < 0.0 then -vyStep else vyStep;
    var c := Ceil(a / (TS * 0.8));
    if c > 1 then c else 1
  }

  /**
   * The sub-step loop as game.js writes it: every one of the `k` remaining steps
   * adds the same `perStep`, computed before the loop, even after a contact has
   * zeroed `vy`.
   */
  function SubstepsAsWritten(level: Level, x: real, s: Vertical, perStep: real, k: nat): Vertical
    decreases k
  {
    if k == 0 then s
    else SubstepsAsWritten(level, x, ResolveY(level, x, s.(pos := s.pos + perStep)), perStep, k - 1)
  }

  /**
   * The sub-step loop with the evident intent: the move stops at the first contact
   * (the step whose resolution zeroed `vy`).
   */
  function Substeps(level: Level, x: real, s: Vertical, perStep: real, k: nat): Vertical
    decreases k
  {
    if k == 0 then s
    else
      var next := ResolveY(level, x, s.(pos := s.pos + perStep));
      if next.vel == 0.0 then next else Substeps(level, x, next, perStep, k - 1)
  }

  /** The player stands flush on a solid cell: its bottom edge is the top of a row with a solid cell under its columns. */
  predicate StandsOn(level: Level, x: real, pos: real)
  {
    var row := ((pos + PLAYER_H) / TS).Floor;
    row as real * TS == pos + PLAYER_H && SolidInRow(level, row, LeftCol(x), RightCol(x) + 1)
  }

  lemma LandingStands(level: Level, x: real, s: Vertical)
    requires s.vel > 0.0
    requires ResolveY(level, x, s).vel == 0.0
    ensures ResolveY(level, x, s).grounded && StandsOn(level, x, ResolveY(level, x, s).pos)
  {
    ResolveYOutcome(level, x, s);
    var first := FirstSolidRow(level, TopRow(s.pos), BottomRow(s.pos) + 1, LeftCol(x), RightCol(x));
    var r := ResolveY(level, x, s);
    assert first.Some?;
    assert (r.pos + PLAYER_H) / TS == first.value as real;
  }

  /**
   * A fall (`vy > 0`, moving down each step) that is stopped during the sub-steps
   * ends grounded and standing flush on the solid row it met; a fall that is not
   * stopped keeps its velocity and is airborne.
   */
  lemma {:induction false} SubstepsLandFlush(level: Level, x: real, s: Vertical, perStep: real, k: nat)
    requires s.vel > 0.0 && perStep > 0.0 && k >= 1
    ensures var r := Substeps(level, x, s, perStep, k);
      && (r.vel == 0.0 ==> r.grounded && StandsOn(level, x, r.pos))
      && (r.vel != 0.0 ==> r.vel == s.vel && !r.grounded)
    decreases k
  {
    var next := ResolveY(level, x, s.(pos := s.pos + perStep));
    ResolveYOutcome(level, x, s.(pos := s.pos + perStep));
    if next.vel == 0.0 {
      LandingStands(level, x, s.(pos := s.pos + perStep));
    } else if k > 1 {
      SubstepsLandFlush(level, x, next, perStep, k - 1);
    }
  }

  /**
   * As written, a sub-step either keeps the starting speed or has stopped it,
   * and a move that never met a solid row is the same as the corrected one.
   */
  lemma {:induction false} SubstepsAsWrittenFacts(level: Level, x: real, s: Vertical, perStep: real, k: nat)
    ensures var r := SubstepsAsWritten(level, x, s, perStep, k);
      r.vel == s.vel || r.vel == 0.0
    ensures Substeps(level, x, s, perStep, k).vel != 0.0 ==>
              SubstepsAsWritten(level, x, s, perStep, k) == Substeps(level, x, s, perStep, k)
    decreases k
  {
    if k > 0 {
      var next := ResolveY(level, x, s.(pos := s.pos + perStep));
      ResolveYOutcome(level, x, s.(pos := s.pos + perStep));
      SubstepsAsWrittenFacts(level, x, next, perStep, k - 1);
    }
  }

  /**
   * As written, once a contact has stopped the player every remaining sub-step
   * still moves it by `perStep`, unresolved and not grounded: this is how a
   * landing can sink into the floor.
   */
  lemma {:induction false} StoppedKeepsDrifting(level: Level, x: real, s: Vertical, perStep: real, k: nat)
    requires s.vel == 0.0 && k >= 1
    ensures SubstepsAsWritten(level, x, s, perStep, k) == Vertical(s.pos + k as real * perStep, 0.0, false)
    decreases k
  {
    var next := ResolveY(level, x, s.(pos := s.pos + perStep));
    ResolveStopped(level, x, s.(pos := s.pos + perStep));
    assert SubstepsAsWritten(level, x, s, perStep, k) == SubstepsAsWritten(level, x, next, perStep, k - 1);
    if k == 1 {
      assert s.pos + k as real * perStep == s.pos + perStep;
    } else {
      StoppedKeepsDrifting(level, x, next, perStep, k - 1);
      DriftSum(s.pos, perStep, k);
    }
  }

  /** A box that is not moving vertically touches nothing: it keeps its place, ungrounded. */
  lemma ResolveStopped(level: Level, x: real, s: Vertical)
    requires s.vel == 0.0
    ensures ResolveY(level, x, s) == Vertical(s.pos, 0.0, false)
  {
    ResolveYOutcome(level, x, s);
  }

  lemma DriftSum(pos: real, perStep: real, k: nat)
    requires k >= 1
    ensures (pos + perStep) + (k - 1) as real * perStep == pos + k as real * perStep
  {
  }

  /** A one-column level: two rows of air over a solid ground row. */
  const SinkLevel: Level := Level("istanbul", 0, 0, [], [" ", " ", "#"], 0, 1, 3)

  /**
   * As written, a fall at `MAX_FALL` with `dt = 3` (vyStep = 21, two sub-steps of
   * 10.5) lands on the first sub-step and is pushed 10.5 px into the ground by the
   * second, which the `vy == 0` resolution leaves alone: the frame ends inside a
   * solid cell and not grounded.
   */
  lemma SubstepsAsWrittenSinks()
    ensures SubstepCount(7.0 * 3.0) == 2
    ensures var r := SubstepsAsWritten(SinkLevel, 0.0, Vertical(10.0, 7.0, false), 10.5, 2);
      && r == Vertical(27.5, 0.0, false)
      && IsSolid(SinkLevel, 0, 2) && r.pos + PLAYER_H > 2.0 * TS
      && !StandsOn(SinkLevel, 0.0, r.pos)
    ensures Substeps(SinkLevel, 0.0, Vertical(10.0, 7.0, false), 10.5, 2) == Vertical(17.0, 0.0, true)
  {
    assert Ceil(21.0 / (TS * 0.8)) == 2;
    var s1 := Vertical(20.5, 7.0, false);
    assert TopRow(20.5) == 1 && BottomRow(20.5) == 2;
    assert LeftCol(0.0) == 0 && RightCol(0.0) == 0;
    assert IsSolid(SinkLevel, 0, 2) && !IsSolid(SinkLevel, 0, 1);
    ResolveYOutcome(SinkLevel, 0.0, s1);
    assert ResolveY(SinkLevel, 0.0, s1) == Vertical(17.0, 0.0, true);
    var s2 := Vertical(27.5, 0.0, true);
    ResolveYOutcome(SinkLevel, 0.0, s2);
    assert ResolveY(SinkLevel, 0.0, s2) == Vertical(27.5, 0.0, false);
    assert ((27.5 + PLAYER_H) / TS).Floor == 2;
  }

  /** The length of one sub-step: the frame's move split into `SubstepCount` equal parts. */
  function StepLength(vyStep: real): real
  {
    vyStep / SubstepCount(vyStep) as real
  }

  /** No sub-step is longer than 0.8 of a tile, so none can skip over a solid row. */
  lemma StepLengthBound(vyStep: real)
    ensures -(TS * 0.8) <= StepLength(vyStep) <= TS * 0.8
    ensures StepLength(vyStep) * SubstepCount(vyStep) as real == vyStep
  {
    var n := SubstepCount(vyStep) as real;
    assert n >= 1.0;
    var a := if vyStep < 0.0 then -vyStep else vyStep;
    assert a <= n * (TS * 0.8);
    assert a / n <= TS * 0.8;
  }

  /** The vertical move of one frame, `vyStep = vy * dt`, in `SubstepCount` equal sub-steps, as written. */
  function VerticalMove(level: Level, x: real, s: Vertical, vyStep: real): Vertical
  {
    SubstepsAsWritten(level, x, s, StepLength(vyStep), SubstepCount(vyStep))
  }

  /** The sub-step loop of `updatePlayer`: every step moves by `perStep` and resolves, with no early exit. */
  method SubstepLoop(level: Level, x: real, s: Vertical, perStep: real, steps: nat) returns (r: Vertical)
    ensures r == SubstepsAsWritten(level, x, s, perStep, steps)
  {
    r := s;
    var k := 0;
    while k < steps
      invariant 0 <= k <= steps
      invariant SubstepsAsWritten(level, x, r, perStep, steps - k) == SubstepsAsWritten(level, x, s, perStep, steps)
    {
      r := ResolveCollisionY(level, x, r.(pos := r.pos + perStep));
      k := k + 1;
    }
  }

  /** The vertical part of `updatePlayer`: `vy * dt` split into sub-steps of at most 0.8 tile. */
  method MoveVertical(level: Level, x: real, s: Vertical, vyStep: real) returns (r: Vertical)
    ensures r == VerticalMove(level, x, s, vyStep)
  {
    r := SubstepLoop(level, x, s, StepLength(vyStep), SubstepCount(vyStep));
  }
}
