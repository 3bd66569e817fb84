/**
 * The player record of game.js and the blocks of `updatePlayer` that act on
 * it alone: jump-input edges and the jump buffer, horizontal control, the
 * coyote-time/jump-buffer jump rule, variable jump height, gravity, the
 * post-collision coyote and landing rules, squash relaxation, the level
 * bounds, the fall respawn and the last-safe position.
 *
 * `dt` is the frame's time scale (1 at 60 Hz, at most 3). `Math.pow(FRICTION, dt)`
 * is passed in as `frictionPow`.
 */
module PlayerPhysics {
  import opened Tilemap

  const GRAVITY: real := 0.4
  const JUMP_FORCE: real := -7.0
  const MOVE_SPEED: real := 2.3
  const MAX_FALL: real := 7.0
  const COYOTE_FRAMES: real := 7.0
  const JUMP_BUFFER_FRAMES: real := 8.0
  const INVINCIBLE_FRAMES: real := 90.0
  const SQUASH_RETURN: real := 0.12
  /** `dt` is clamped to 3 by the game loop. */
  const MAX_DT: real := 3.0

  datatype Anim = Idle | Run | Jumping | Falling

  datatype Player = Player(
    x: real, y: real, vx: real, vy: real,
    onGround: bool, facing: int, anim: Anim,
    heartsCollected: nat,
    lastSafeX: real, lastSafeY: real,
    coyoteTimer: real, jumpBufferTimer: real, invincibleTimer: real,
    squashX: real, squashY: real,
    combo: nat,
    wasJumpPressed: bool)

  /** Level-triggered intents for one frame (`isPressed('left'|'right'|'jump')`). */
  datatype Input = Input(left: bool, right: bool, jump: bool)

  /** The player as `loadLevel` resets it, standing at the level's start cell. */
  function Spawned(startCol: int, startRow: int): (p: Player)
    ensures p.x == startCol as real * TS && p.y == startRow as real * TS
    ensures p.vx == 0.0 && p.vy == 0.0 && !p.onGround && p.facing == 1
    ensures p.lastSafeX == p.x && p.lastSafeY == p.y
    ensures p.coyoteTimer == 0.0 && p.jumpBufferTimer == 0.0 && p.invincibleTimer == 0.0
    ensures p.combo == 0 && p.heartsCollected == 0 && !p.wasJumpPressed
    ensures p.anim == Idle && p.squashX == 1.0 && p.squashY == 1.0
  {
    var x, y := startCol as real * TS, startRow as real * TS;
    Player(x, y, 0.0, 0.0, false, 1, Idle, 0, x, y, 0.0, 0.0, 0.0, 1.0, 1.0, 0, false)
  }

  // ---------------- jump input ----------------

  function JustPressed(p: Player, held: bool): bool { held && !p.wasJumpPressed }
  function JustReleased(p: Player, held: bool): bool { !held && p.wasJumpPressed }

  /**
   * Edge detection and the jump buffer: a fresh press arms the buffer with
   * `JUMP_BUFFER_FRAMES`; a positive buffer then runs down by `dt`.
   */
  function BufferJump(p: Player, held: bool, dt: real): (r: Player)
    ensures r.wasJumpPressed == held
    ensures JustPressed(p, held) ==> r.jumpBufferTimer == JUMP_BUFFER_FRAMES - dt
    ensures !JustPressed(p, held) && p.jumpBufferTimer > 0.0 ==> r.jumpBufferTimer == p.jumpBufferTimer - dt
    ensures !JustPressed(p, held) && p.jumpBufferTimer <= 0.0 ==> r.jumpBufferTimer == p.jumpBufferTimer
    ensures r == p.(wasJumpPressed := held, jumpBufferTimer := r.jumpBufferTimer)
  {
    var buffer := if JustPressed(p, held) then JUMP_BUFFER_FRAMES else p.jumpBufferTimer;
    p.(wasJumpPressed := held, jumpBufferTimer := if buffer > 0.0 then buffer - dt else buffer)
  }

  // ---------------- horizontal control ----------------

  /** `moveDir`: right wins over left. */
  function MoveDir(input: Input): int
  {
    if input.right then 1 else if input.left then -1 else 0
  }

  /**
   * Accelerate toward the held direction, clamped to `MOVE_SPEED`; with no
   * direction, apply friction and snap a residual speed under 0.1 to 0.
   */
  function Steer(p: Player, input: Input, dt: real, frictionPow: real): (r: Player)
    ensures MoveDir(input) != 0 ==> -MOVE_SPEED <= r.vx <= MOVE_SPEED && r.facing == MoveDir(input)
    ensures dt >= 0.0 && MoveDir(input) == 1 ==> r.vx >= p.vx || r.vx == MOVE_SPEED
    ensures dt >= 0.0 && MoveDir(input) == -1 ==> r.vx <= p.vx || r.vx == -MOVE_SPEED
    ensures MoveDir(input) == 0 ==>
              (r.facing == p.facing &&
               (r.vx == 0.0 <==> -0.1 < p.vx * frictionPow < 0.1) &&
               (r.vx != 0.0 ==> r.vx == p.vx * frictionPow))
    ensures MoveDir(input) != 0 && p.onGround ==> r.anim == Run
    ensures MoveDir(input) == 0 && p.onGround ==> r.anim == Idle
    ensures MoveDir(input) != 0 && !p.onGround ==> r.anim == (if p.vy < 0.0 then Jumping else Falling)
    ensures MoveDir(input) == 0 && !p.onGround ==> r.anim == p.anim
    ensures r == p.(vx := r.vx, facing := r.facing, anim := r.anim)
  {
    var dir := MoveDir(input);
    if dir != 0 then
      var v := p.vx + dir as real * MOVE_SPEED * 0.3 * dt;
      var clamped := if v > MOVE_SPEED then MOVE_SPEED else if v < -MOVE_SPEED then -MOVE_SPEED else v;
      p.(vx := clamped, facing := dir,
         anim := if p.onGround then Run else if p.vy < 0.0 then Jumping else Falling)
    else
      var v := p.vx * frictionPow;
      p.(vx := if -0.1 < v < 0.1 then 0.0 else v, anim := if p.onGround then Idle else p.anim)
  }

  // ---------------- the jump rule ----------------

  /** A jump is wanted (fresh press or live buffer) and allowed (grounded or coyote time left). */
  predicate JumpFires(p: Player, justPressed: bool)
  {
    (justPressed || p.jumpBufferTimer > 0.0) && (p.onGround || p.coyoteTimer > 0.0)
  }

  /** Jump execution: impulse, leave the ground, consume both timers, stretch. */
  function TryJump(p: Player, justPressed: bool): (r: Player)
    ensures JumpFires(p, justPressed) ==>
              r.vy == JUMP_FORCE && !r.onGround && r.coyoteTimer == 0.0 && r.jumpBufferTimer == 0.0 &&
              r.anim == Jumping && r.squashX == 0.75 && r.squashY == 1.25
    ensures r == p.(vy := r.vy, onGround := r.onGround, coyoteTimer := r.coyoteTimer,
                    jumpBufferTimer := r.jumpBufferTimer, anim := r.anim,
                    squashX := r.squashX, squashY := r.squashY)
    ensures !JumpFires(p, justPressed) ==> r == p
  {
    if JumpFires(p, justPressed) then
      p.(vy := JUMP_FORCE, onGround := false, coyoteTimer := 0.0, jumpBufferTimer := 0.0,
         anim := Jumping, squashX := 0.75, squashY := 1.25)
    else p
  }

  /** Variable jump height: on the release edge, a rise faster than 1 px/frame is halved. */
  function CutJump(p: Player, justReleased: bool): (r: Player)
    ensures justReleased && p.vy < -1.0 ==> r.vy == p.vy * 0.5 && r.vy > p.vy
    ensures !(justReleased && p.vy < -1.0) ==> r == p
  {
    if justReleased && p.vy < -1.0 then p.(vy := p.vy * 0.5) else p
  }

  /** Airborne animation, then gravity capped at `MAX_FALL`. */
  function Fall(p: Player, dt: real): (r: Player)
    ensures r.vy <= MAX_FALL
    ensures p.vy + GRAVITY * dt <= MAX_FALL ==> r.vy == p.vy + GRAVITY * dt
    ensures p.vy + GRAVITY * dt > MAX_FALL ==> r.vy == MAX_FALL
    ensures p.onGround ==> r == p.(vy := r.vy)
    ensures !p.onGround ==> r == p.(vy := r.vy, anim := if p.vy < 0.0 then Jumping else Falling)
  {
    var q := if !p.onGround then p.(anim := if p.vy < 0.0 then Jumping else Falling) else p;
    var vy := q.vy + GRAVITY * dt;
    q.(vy := if vy > MAX_FALL then MAX_FALL else vy)
  }

  /** Everything `updatePlayer` does to the player before moving it. */
  function PrepareMove(p: Player, input: Input, dt: real, frictionPow: real): (r: Player)
  {
    var pressed, released := JustPressed(p, input.jump), JustReleased(p, input.jump);
    var b := BufferJump(p, input.jump, dt);
    var s := Steer(b, input, dt, frictionPow);
    Fall(CutJump(TryJump(s, pressed), released), dt)
  }

  // ---------------- after collision ----------------

  /**
   * Coyote time and landing, given the grounded flag at the start of the frame:
   * walking off a ledge (grounded -> airborne while `vy > 0`) arms the coyote
   * window, which runs down while airborne and is forced to 0 on the ground; the
   * airborne -> grounded edge resets the combo and squashes the sprite.
   */
  function Land(p: Player, wasOnGround: bool, dt: real): (r: Player)
    ensures p.onGround ==> r.coyoteTimer == 0.0
    ensures wasOnGround && !p.onGround && p.vy > 0.0 ==> r.coyoteTimer == COYOTE_FRAMES - dt
    ensures !p.onGround && !(wasOnGround && p.vy > 0.0) ==>
              r.coyoteTimer == (if p.coyoteTimer > 0.0 then p.coyoteTimer - dt else p.coyoteTimer)
    ensures !wasOnGround && p.onGround ==> r.combo == 0 && r.squashX == 1.3 && r.squashY == 0.7
    ensures !(!wasOnGround && p.onGround) ==> r.combo == p.combo && r.squashX == p.squashX && r.squashY == p.squashY
    ensures r == p.(coyoteTimer := r.coyoteTimer, combo := r.combo, squashX := r.squashX, squashY := r.squashY)
  {
    var armed := if wasOnGround && !p.onGround && p.vy > 0.0 then COYOTE_FRAMES else p.coyoteTimer;
    var decayed := if armed > 0.0 && !p.onGround then armed - dt else armed;
    var q := p.(coyoteTimer := if p.onGround then 0.0 else decayed);
    if !wasOnGround && p.onGround then q.(squashX := 1.3, squashY := 0.7, combo := 0) else q
  }

  /** One easing step of a squash factor toward 1: `a + (1 - a) * k`. */
  function Toward(a: real, k: real): real
  {
    a + (1.0 - a) * k
  }

  /** `Toward(a, k)` lies between `a` and 1 when `0 <= k <= 1`. */
  lemma TowardOne(a: real, k: real)
    requires 0.0 <= k <= 1.0
    ensures a <= 1.0 ==> a <= Toward(a, k) <= 1.0
    ensures a >= 1.0 ==> 1.0 <= Toward(a, k) <= a
  {
    if a <= 1.0 {
      assert (1.0 - a) * k <= (1.0 - a) * 1.0;
    } else {
      assert (a - 1.0) * k <= (a - 1.0) * 1.0;
    }
  }

  /** Squash/stretch relaxes toward 1 without overshooting; the invincibility window runs down. */
  function Relax(p: Player, dt: real): (r: Player)
    ensures p.invincibleTimer > 0.0 ==> r.invincibleTimer == p.invincibleTimer - dt
    ensures p.invincibleTimer <= 0.0 ==> r.invincibleTimer == p.invincibleTimer
    ensures 0.0 <= SQUASH_RETURN * dt <= 1.0 ==>
              (p.squashX <= 1.0 ==> p.squashX <= r.squashX <= 1.0) &&
              (p.squashX >= 1.0 ==> 1.0 <= r.squashX <= p.squashX) &&
              (p.squashY <= 1.0 ==> p.squashY <= r.squashY <= 1.0) &&
              (p.squashY >= 1.0 ==> 1.0 <= r.squashY <= p.squashY)
    ensures r == p.(squashX := r.squashX, squashY := r.squashY, invincibleTimer := r.invincibleTimer)
  {
    var k := SQUASH_RETURN * dt;
    if 0.0 <= k <= 1.0 then
      TowardOne(p.squashX, k);
      TowardOne(p.squashY, k);
      Relaxed(p, k, dt)
    else Relaxed(p, k, dt)
  }

  function Relaxed(p: Player, k: real, dt: real): Player
  {
    p.(squashX := Toward(p.squashX, k),
       squashY := Toward(p.squashY, k),
       invincibleTimer := if p.invincibleTimer > 0.0 then p.invincibleTimer - dt else p.invincibleTimer)
  }

  /** Horizontal level bounds: `x` into [0, width*TS - PLAYER_W], stopping at an edge. */
  function KeepInLevel(p: Player, width: int): (r: Player)
    ensures var maxX := width as real * TS - PLAYER_W;
      && r.x <= maxX
      && (maxX >= 0.0 ==> 0.0 <= r.x)
      && (0.0 <= p.x <= maxX ==> r == p)
      && (p.x < 0.0 && maxX >= 0.0 ==> r.x == 0.0)
      && (p.x > maxX || (p.x < 0.0 && maxX < 0.0) ==> r.x == maxX)
      && (r.x != p.x ==> r.vx == 0.0)
    ensures r == p.(x := r.x, vx := r.vx)
  {
    var maxX := width as real * TS - PLAYER_W;
    var q := if p.x < 0.0 then p.(x := 0.0, vx := 0.0) else p;
    if q.x > maxX then q.(x := maxX, vx := 0.0) else q
  }

  /** Below the map by more than 32 px. */
  predicate FellOut(p: Player, height: int)
  {
    p.y > height as real * TS + 32.0
  }

  /** Fall safety: back to the last safe position, at rest, with half the hit invincibility. */
  function Respawn(p: Player, height: int): (r: Player)
    ensures FellOut(p, height) ==>
              r.x == p.lastSafeX && r.y == p.lastSafeY && r.vx == 0.0 && r.vy == 0.0 &&
              r.invincibleTimer == INVINCIBLE_FRAMES * 0.5
    ensures r == p.(x := r.x, y := r.y, vx := r.vx, vy := r.vy, invincibleTimer := r.invincibleTimer)
    ensures !FellOut(p, height) ==> r == p
  {
    if FellOut(p, height) then
      p.(x := p.lastSafeX, y := p.lastSafeY, vx := 0.0, vy := 0.0, invincibleTimer := INVINCIBLE_FRAMES * 0.5)
    else p
  }

  /** The last safe position follows the player while grounded. */
  function SaveSafe(p: Player): (r: Player)
    ensures p.onGround ==> r.lastSafeX == p.x && r.lastSafeY == p.y
    ensures r == p.(lastSafeX := r.lastSafeX, lastSafeY := r.lastSafeY)
    ensures !p.onGround ==> r == p
  {
    if p.onGround then p.(lastSafeX := p.x, lastSafeY := p.y) else p
  }

  /** Everything `updatePlayer` does to the player between collision and enemy contact. */
  function FinishMove(p: Player, wasOnGround: bool, dt: real, width: int, height: int): Player
  {
    SaveSafe(Respawn(KeepInLevel(Relax(Land(p, wasOnGround, dt), dt), width), height))
  }

  // ---------------- properties across the blocks ----------------

  /** The ranges the two jump timers keep: `(-MAX_DT, MAX]`, `<= 0` meaning inactive. */
  predicate TimersInRange(p: Player)
  {
    -MAX_DT < p.jumpBufferTimer <= JUMP_BUFFER_FRAMES && -MAX_DT < p.coyoteTimer <= COYOTE_FRAMES
  }

  /**
   * The timer ranges hold across a whole player update, whatever the collision
   * step does to position, velocity and `onGround` (`moved`).
   */
  lemma TimersStayInRange(p: Player, input: Input, dt: real, frictionPow: real,
                          moved: Player, width: int, height: int)
    requires 0.0 <= dt <= MAX_DT && TimersInRange(p)
    requires var q := PrepareMove(p, input, dt, frictionPow);
      moved == q.(x := moved.x, y := moved.y, vx := moved.vx, vy := moved.vy, onGround := moved.onGround)
    ensures TimersInRange(PrepareMove(p, input, dt, frictionPow))
    ensures TimersInRange(FinishMove(moved, p.onGround, dt, width, height))
  {
    var b := BufferJump(p, input.jump, dt);
    var s := Steer(b, input, dt, frictionPow);
    var j := TryJump(s, JustPressed(p, input.jump));
    var c := CutJump(j, JustReleased(p, input.jump));
    assert TimersInRange(c);
    var q := Fall(c, dt);
    assert q == PrepareMove(p, input, dt, frictionPow);
    assert moved.coyoteTimer == q.coyoteTimer && moved.jumpBufferTimer == q.jumpBufferTimer;
    var l := Land(moved, p.onGround, dt);
    assert TimersInRange(l);
    var k := KeepInLevel(Relax(l, dt), width);
    assert k.coyoteTimer == l.coyoteTimer && k.jumpBufferTimer == l.jumpBufferTimer;
    var f := SaveSafe(Respawn(k, height));
    assert f.coyoteTimer == k.coyoteTimer && f.jumpBufferTimer == k.jumpBufferTimer;
  }

  /**
   * One impulse per press: once a jump has fired on a held button (buffer consumed,
   * press remembered), a following frame with the button still held cannot fire
   * another, on the ground or not.
   */
  lemma NoSecondJumpWhileHeld(p: Player, input: Input, dt: real, frictionPow: real)
    requires input.jump && p.wasJumpPressed && p.jumpBufferTimer <= 0.0
    ensures var s := Steer(BufferJump(p, input.jump, dt), input, dt, frictionPow);
      !JumpFires(s, JustPressed(p, input.jump))
  {
  }

  /** A jump fired on a fresh press leaves the buffer empty and the press remembered. */
  lemma JumpConsumesPress(p: Player, input: Input, dt: real, frictionPow: real)
    requires input.jump && !p.wasJumpPressed && 0.0 <= dt <= MAX_DT
    requires p.onGround || p.coyoteTimer > 0.0
    ensures var r := PrepareMove(p, input, dt, frictionPow);
      r.wasJumpPressed && r.jumpBufferTimer == 0.0 && r.coyoteTimer == 0.0 && !r.onGround &&
      r.vy == (if JUMP_FORCE + GRAVITY * dt <= MAX_FALL then JUMP_FORCE + GRAVITY * dt else MAX_FALL)
  {
    var b := BufferJump(p, input.jump, dt);
    var s := Steer(b, input, dt, frictionPow);
    assert JumpFires(s, true);
  }

  /**
   * Coyote time: an airborne player with no coyote time left cannot jump, even on a
   * fresh press; with some left, a fresh press jumps.
   */
  lemma CoyoteWindow(p: Player, justPressed: bool)
    requires !p.onGround
    ensures p.coyoteTimer <= 0.0 ==> !JumpFires(p, justPressed)
    ensures p.coyoteTimer > 0.0 && justPressed ==> TryJump(p, justPressed).vy == JUMP_FORCE
  {
  }

  /** `n` airborne frames at `dt = 1` after collision: the coyote rule applied `n` times. */
  function Airborne(p: Player, n: nat): Player
  {
    if n == 0 then p else Land(Airborne(p, n - 1), false, 1.0)
  }

  /**
   * Walking off a ledge at `dt = 1` arms the timer and runs it down in the same
   * frame; after `n` further airborne frames it stands at `COYOTE_FRAMES - 1 - n`
   * (never below 0), so a fresh press is honoured on the next `COYOTE_FRAMES - 1`
   * frames and refused from then on.
   */
  lemma {:induction false} CoyoteCountdown(p: Player, n: nat)
    requires p.onGround && p.vy >= 0.0
    ensures var edge := Land(p.(onGround := false, vy := p.vy + 1.0), true, 1.0);
      var q := Airborne(edge, n);
      && q.coyoteTimer == (if n as real < COYOTE_FRAMES - 1.0 then COYOTE_FRAMES - 1.0 - n as real else 0.0)
      && !q.onGround
      && (JumpFires(q, true) <==> n as real < COYOTE_FRAMES - 1.0)
  {
    if n > 0 {
      CoyoteCountdown(p, n - 1);
    }
  }

  /** A landing (airborne at the start of the frame, grounded after collision) always ends the combo. */
  lemma LandingEndsCombo(moved: Player, dt: real, width: int, height: int)
    requires moved.onGround
    ensures FinishMove(moved, false, dt, width, height).combo == 0
    ensures FinishMove(moved, false, dt, width, height).coyoteTimer == 0.0
  {
  }
}
