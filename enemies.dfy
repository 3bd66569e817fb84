/**
 * Enemies of game.js: spawning from a level's placement list (`loadLevel`),
 * the patrol update (`updateEnemies`) and the player-enemy contact pass at
 * the end of `updatePlayer` (stomp or hit).
 */
module Enemies {
  import opened Wrappers
  import opened Levels
  import opened Tilemap
  import opened PlayerPhysics
  import opened Effects

  const SCORE_STOMP: int := 200
  /** Points per stomp are multiplied by the combo, capped here. */
  const COMBO_CAP: nat := 5
  /** Frames a stomped enemy keeps its death animation. */
  const DEATH_FRAMES: real := 30.0

  /** `ENEMY_CONFIG` entry: patrol speed and collision box. */
  datatype Config = Config(speed: real, w: real, h: real)

  /** `ENEMY_CONFIG[type] || ENEMY_CONFIG.broken_heart`. */
  function ConfigOf(kind: EnemyKind): (c: Config)
    ensures kind.Thorn? ==> c == Config(0.0, 14.0, 16.0)
    ensures kind.Teardrop? ==> c == Config(1.0, 12.0, 14.0)
    ensures kind.BrokenHeart? || kind.OtherKind? ==> c == Config(0.6, 12.0, 14.0)
  {
    match kind
    case Thorn => Config(0.0, 14.0, 16.0)
    case Teardrop => Config(1.0, 12.0, 14.0)
    case _ => Config(0.6, 12.0, 14.0)
  }

  datatype Enemy = Enemy(kind: EnemyKind, x: real, y: real, w: real, h: real,
                         vx: real, vy: real, patrolLeft: real, patrolRight: real,
                         facing: int, alive: bool, animFrame: nat, deathTimer: real)

  /** Level `index` (0-based) patrols `1 + 0.15 * index` times faster. */
  function DifficultyMul(index: nat): (m: real)
    ensures m >= 1.0
    ensures index > 0 ==> m > DifficultyMul(index - 1)
  {
    1.0 + index as real * 0.15
  }

  /** `(bound || x)`: a missing bound and a bound of 0 both fall back to the spawn column. */
  function PatrolOr(bound: Option<int>, x: int): (c: int)
    ensures bound.Some? && bound.value != 0 ==> c == bound.value
    ensures bound.None? || bound == Some(0) ==> c == x
  {
    if bound.Some? && bound.value != 0 then bound.value else x
  }

  /**
   * One spawned enemy: standing on the bottom of its tile, moving right at the
   * scaled speed (thorns stand still), patrolling between its bounds in pixels.
   */
  function Spawn(def: EnemyDef, index: nat): (e: Enemy)
    ensures e.alive && e.facing == 1 && e.deathTimer == 0.0 && e.animFrame == 0 && e.kind == def.kind
    ensures e.x == def.x as real * TS
    ensures e.y + e.h == (def.y + 1) as real * TS
    ensures e.w == ConfigOf(def.kind).w && e.h == ConfigOf(def.kind).h
    ensures def.kind.Thorn? ==> e.vx == 0.0
    ensures !def.kind.Thorn? ==> e.vx == ConfigOf(def.kind).speed * DifficultyMul(index) && e.vx > 0.0
    ensures e.patrolLeft == PatrolOr(def.patrolLeft, def.x) as real * TS
    ensures e.patrolRight == PatrolOr(def.patrolRight, def.x) as real * TS
    ensures def.patrolLeft.None? && def.patrolRight.None? ==> e.patrolLeft == e.x == e.patrolRight
    ensures e.vy == 0.0
  {
    var cfg := ConfigOf(def.kind);
    Enemy(def.kind, def.x as real * TS, def.y as real * TS - cfg.h + TS, cfg.w, cfg.h,
          if def.kind.Thorn? then 0.0 else cfg.speed * DifficultyMul(index), 0.0,
          PatrolOr(def.patrolLeft, def.x) as real * TS, PatrolOr(def.patrolRight, def.x) as real * TS,
          1, true, 0, 0.0)
  }

  /** `loadLevel`'s spawn loop: one enemy per placement, in order. */
  method SpawnEnemies(defs: seq<EnemyDef>, index: nat) returns (es: seq<Enemy>)
    ensures |es| == |defs|
    ensures forall i :: 0 <= i < |defs| ==> es[i] == Spawn(defs[i], index)
  {
    es := [];
    var i := 0;
    while i < |defs|
      invariant 0 <= i <= |defs|
      invariant |es| == i
      invariant forall j :: 0 <= j < i ==> es[j] == Spawn(defs[j], index)
    {
      es := es + [Spawn(defs[i], index)];
      i := i + 1;
    }
  }

  // ---------------- patrol ----------------

  /** Patrol step of a live, moving enemy: advance along `facing`, turning at the bounds. */
  function Patrol(e: Enemy, dt: real): (r: Enemy)
    ensures e.patrolLeft <= e.patrolRight ==> e.patrolLeft <= r.x <= e.patrolRight
    ensures r.x == e.patrolLeft && e.patrolLeft < e.patrolRight ==> r.facing == 1
    ensures r.x == e.patrolRight && e.patrolLeft < e.patrolRight ==> r.facing == -1
    ensures e.patrolLeft < r.x < e.patrolRight ==> r.x == e.x + e.vx * dt * e.facing as real && r.facing == e.facing
    ensures var x := e.x + e.vx * dt * e.facing as real;
      && (x <= e.patrolLeft ==> r.x == e.patrolLeft && r.facing == 1)
      && (e.patrolLeft < x && e.patrolRight <= x ==> r.x == e.patrolRight && r.facing == -1)
      && (e.patrolLeft < x < e.patrolRight ==> r.x == x && r.facing == e.facing)
    ensures r == e.(x := r.x, facing := r.facing)
  {
    var x := e.x + e.vx * dt * e.facing as real;
    if x <= e.patrolLeft then e.(x := e.patrolLeft, facing := 1)
    else if x >= e.patrolRight then e.(x := e.patrolRight, facing := -1)
    else e.(x := x)
  }

  /**
   * `updateEnemies` for one enemy: a dead one only runs down its death timer;
   * a live one advances its animation frame, and unless it is a thorn, patrols.
   * The teardrop's vertical bob is visual only and is not modelled.
   */
  function UpdateEnemy(e: Enemy, dt: real): (r: Enemy)
    ensures !e.alive ==> r == e.(deathTimer := e.deathTimer - dt)
    ensures e.alive && e.kind.Thorn? ==> r == e.(animFrame := e.animFrame + 1)
    ensures e.alive && !e.kind.Thorn? ==> r == Patrol(e.(animFrame := e.animFrame + 1), dt)
    ensures e.alive && !e.kind.Thorn? && e.patrolLeft <= e.patrolRight ==> e.patrolLeft <= r.x <= e.patrolRight
    ensures r.alive == e.alive && r.kind == e.kind && r.y == e.y && r.w == e.w && r.h == e.h
    ensures r.patrolLeft == e.patrolLeft && r.patrolRight == e.patrolRight && r.vx == e.vx
  {
    if !e.alive then e.(deathTimer := e.deathTimer - dt)
    else
      var a := e.(animFrame := e.animFrame + 1);
      if e.kind.Thorn? then a else Patrol(a, dt)
  }

  /** `e.facing` stays a unit direction. */
  lemma UpdateKeepsFacing(e: Enemy, dt: real)
    requires e.facing == 1 || e.facing == -1
    ensures UpdateEnemy(e, dt).facing == 1 || UpdateEnemy(e, dt).facing == -1
  {
  }

  /** `n` frames of `updateEnemies` on one enemy. */
  function UpdateTimes(e: Enemy, dt: real, n: nat): Enemy
  {
    if n == 0 then e else UpdateEnemy(UpdateTimes(e, dt, n - 1), dt)
  }

  /**
   * Once patrolling, a live enemy stays inside its patrol range for good (after
   * the first frame when it spawned outside it); a dead one never comes back.
   */
  lemma {:induction false} PatrolForever(e: Enemy, dt: real, n: nat)
    requires e.alive && !e.kind.Thorn? && e.patrolLeft <= e.patrolRight && n >= 1
    ensures var r := UpdateTimes(e, dt, n);
      r.alive && e.patrolLeft <= r.x <= e.patrolRight && r.patrolLeft == e.patrolLeft && r.patrolRight == e.patrolRight
  {
    if n > 1 {
      PatrolForever(e, dt, n - 1);
    }
  }

  /** A thorn never moves. */
  lemma {:induction false} ThornStaysPut(e: Enemy, dt: real, n: nat)
    requires e.kind.Thorn?
    ensures UpdateTimes(e, dt, n).x == e.x && UpdateTimes(e, dt, n).kind.Thorn?
    ensures UpdateTimes(e, dt, n).alive == e.alive
  {
    if n > 0 {
      ThornStaysPut(e, dt, n - 1);
    }
  }

  /** The `for (const e of enemies)` loop, updating each enemy in turn. */
  method UpdateEnemies(es: seq<Enemy>, dt: real) returns (r: seq<Enemy>)
    ensures |r| == |es|
    ensures forall i :: 0 <= i < |es| ==> r[i] == UpdateEnemy(es[i], dt)
  {
    r := es;
    var i := 0;
    while i < |r|
      invariant 0 <= i <= |r| == |es|
      invariant forall j :: 0 <= j < i ==> r[j] == UpdateEnemy(es[j], dt)
      invariant forall j :: i <= j < |r| ==> r[j] == es[j]
    {
      r := r[i := UpdateEnemy(r[i], dt)];
      i := i + 1;
    }
  }

  // ---------------- contact with the player ----------------

  /** The state the contact pass reads and writes. */
  datatype Contact = Contact(p: Player, enemies: seq<Enemy>, score: int,
                             popups: seq<ScorePopup>, combo: ComboPopup, shake: real)

  /** Strict AABB overlap of the player's box with the enemy's. */
  predicate Overlaps(p: Player, e: Enemy)
  {
    p.x + PLAYER_W > e.x && p.x < e.x + e.w && p.y + PLAYER_H > e.y && p.y < e.y + e.h
  }

  /** Falling, with the player's feet above the enemy's vertical midpoint. */
  predicate IsStomp(p: Player, e: Enemy)
  {
    p.vy > 0.0 && p.y + PLAYER_H < e.y + e.h * 0.5
  }

  /** Points for the stomp that brings the combo to `combo`. */
  function StompPoints(combo: nat): (pts: int)
    ensures SCORE_STOMP <= pts <= SCORE_STOMP * COMBO_CAP || combo == 0
    ensures combo >= COMBO_CAP ==> pts == SCORE_STOMP * COMBO_CAP
    ensures combo <= COMBO_CAP ==> pts == SCORE_STOMP * combo
  {
    SCORE_STOMP * (if combo < COMBO_CAP then combo else COMBO_CAP)
  }

  /** A stomp: the enemy dies, the player bounces, the combo grows and scores. */
  function Stomp(c: Contact, i: int): Contact
    requires 0 <= i < |c.enemies|
  {
    var e := c.enemies[i];
    var combo := c.p.combo + 1;
    var pts := StompPoints(combo);
    var cx := e.x + e.w / 2.0;
    Contact(c.p.(vy := JUMP_FORCE * 0.6, combo := combo, squashY := 0.6, squashX := 1.4),
            c.enemies[i := e.(alive := false, deathTimer := DEATH_FRAMES)],
            c.score + pts,
            c.popups + [ScorePopup(pts, cx, e.y, 40.0, 40.0)],
            if combo > 1 then ComboPopup(combo, cx, e.y - 15.0, 70.0) else c.combo,
            AddShake(c.shake, 3.0 + combo as real * 1.5))
  }

  /** A hit: back to the last safe spot, at rest, invincible for `INVINCIBLE_FRAMES`. */
  function Hit(c: Contact): Contact
  {
    c.(p := c.p.(x := c.p.lastSafeX, y := c.p.lastSafeY, vx := 0.0, vy := 0.0,
                 invincibleTimer := INVINCIBLE_FRAMES),
       shake := AddShake(c.shake, 6.0))
  }

  /**
   * One enemy of the contact pass: dead or not touching, nothing happens; a
   * stomp on anything but a thorn kills it; otherwise it hits an unprotected player.
   */
  function ContactStep(c: Contact, i: int): (r: Contact)
    requires 0 <= i < |c.enemies|
    ensures |r.enemies| == |c.enemies|
    ensures forall j :: 0 <= j < |c.enemies| && j != i ==> r.enemies[j] == c.enemies[j]
    ensures r.score >= c.score
  {
    var e := c.enemies[i];
    if !e.alive || !Overlaps(c.p, e) then c
    else if IsStomp(c.p, e) && !e.kind.Thorn? then Stomp(c, i)
    else if c.p.invincibleTimer <= 0.0 then Hit(c)
    else c
  }

  /** The contact pass over enemies `n-1` down to 0 (the source's loop runs back to front). */
  function Contacts(c: Contact, n: int): Contact
    requires 0 <= n <= |c.enemies|
    decreases n
  {
    if n == 0 then c
    else
      ContactStepKeepsLength(c, n - 1);
      Contacts(ContactStep(c, n - 1), n - 1)
  }

  lemma ContactStepKeepsLength(c: Contact, i: int)
    requires 0 <= i < |c.enemies|
    ensures |ContactStep(c, i).enemies| == |c.enemies|
  {
  }

  /** The player-enemy loop at the end of `updatePlayer`. */
  method ResolveContacts(c: Contact) returns (r: Contact)
    ensures r == Contacts(c, |c.enemies|)
  {
    r := c;
    var i := |c.enemies|;
    while i > 0
      invariant 0 <= i <= |r.enemies| == |c.enemies|
      invariant Contacts(r, i) == Contacts(c, |c.enemies|)
    {
      i := i - 1;
      r := ContactStep(r, i);
    }
  }

  /** Number of live enemies. */
  function CountAlive(es: seq<Enemy>): nat
  {
    if es == [] then 0 else CountAlive(es[..|es| - 1]) + (if es[|es| - 1].alive then 1 else 0)
  }

  /** Killing one live enemy lowers the live count by one; any other update of a dead one keeps it. */
  lemma {:induction false} CountAliveUpdate(es: seq<Enemy>, i: int, e: Enemy)
    requires 0 <= i < |es|
    ensures CountAlive(es[i := e]) + (if es[i].alive then 1 else 0) == CountAlive(es) + (if e.alive then 1 else 0)
  {
    var last := |es| - 1;
    if i < last {
      CountAliveUpdate(es[..last], i, e);
      assert es[i := e][..last] == es[..last][i := e];
    } else {
      assert es[i := e][..last] == es[..last];
    }
  }

  /**
   * Across a contact pass: the score never drops and grows by at most
   * `SCORE_STOMP * COMBO_CAP` per kill; every kill adds one to the combo; no
   * enemy comes back to life and thorns are never killed; the player ends where
   * they were or at the last safe spot.
   */
  lemma {:induction false} ContactsOutcome(c: Contact, n: int)
    requires 0 <= n <= |c.enemies|
    ensures var r := Contacts(c, n);
      && |r.enemies| == |c.enemies|
      && r.p.combo >= c.p.combo
      && CountAlive(r.enemies) + r.p.combo == CountAlive(c.enemies) + c.p.combo
      && c.score <= r.score <= c.score + SCORE_STOMP * COMBO_CAP * (r.p.combo - c.p.combo)
      && (forall j :: 0 <= j < |c.enemies| && !c.enemies[j].alive ==> !r.enemies[j].alive)
      && (forall j :: 0 <= j < |c.enemies| && c.enemies[j].kind.Thorn? ==> r.enemies[j] == c.enemies[j])
      && r.p.lastSafeX == c.p.lastSafeX && r.p.lastSafeY == c.p.lastSafeY
      && ((r.p.x == c.p.x && r.p.y == c.p.y) || (r.p.x == c.p.lastSafeX && r.p.y == c.p.lastSafeY))
    decreases n
  {
    if n > 0 {
      var i := n - 1;
      var s := ContactStep(c, i);
      ContactStepOutcome(c, i);
      ContactsOutcome(s, i);
    }
  }

  /** The effect of one enemy on the contact state. */
  lemma ContactStepOutcome(c: Contact, i: int)
    requires 0 <= i < |c.enemies|
    ensures var r := ContactStep(c, i);
      && r.p.combo >= c.p.combo
      && CountAlive(r.enemies) + r.p.combo == CountAlive(c.enemies) + c.p.combo
      && c.score <= r.score <= c.score + SCORE_STOMP * COMBO_CAP * (r.p.combo - c.p.combo)
      && (!c.enemies[i].alive ==> !r.enemies[i].alive)
      && (c.enemies[i].kind.Thorn? ==> r.enemies[i] == c.enemies[i])
      && r.p.lastSafeX == c.p.lastSafeX && r.p.lastSafeY == c.p.lastSafeY
      && ((r.p.x == c.p.x && r.p.y == c.p.y) || (r.p.x == c.p.lastSafeX && r.p.y == c.p.lastSafeY))
  {
    var e := c.enemies[i];
    if e.alive && Overlaps(c.p, e) && IsStomp(c.p, e) && !e.kind.Thorn? {
      CountAliveUpdate(c.enemies, i, e.(alive := false, deathTimer := DEATH_FRAMES));
    }
  }

  /** While invincible, contacts never move the player: stomps still work, hits do not land. */
  lemma {:induction false} InvincibleIgnoresHits(c: Contact, n: int)
    requires 0 <= n <= |c.enemies| && c.p.invincibleTimer > 0.0
    ensures var r := Contacts(c, n);
      r.p.x == c.p.x && r.p.y == c.p.y && r.p.vx == c.p.vx && r.p.invincibleTimer == c.p.invincibleTimer
    decreases n
  {
    if n > 0 {
      InvincibleIgnoresHits(ContactStep(c, n - 1), n - 1);
    }
  }

  /**
   * A stomp on a live broken heart: it dies with a 30-frame death timer, the
   * player bounces up at `0.6 * JUMP_FORCE`, the combo grows by one and the
   * score by 200 times the combo (at most 5 times).
   */
  lemma StompEffect(c: Contact, i: int)
    requires 0 <= i < |c.enemies|
    requires c.enemies[i].alive && Overlaps(c.p, c.enemies[i]) && IsStomp(c.p, c.enemies[i])
    requires !c.enemies[i].kind.Thorn?
    ensures var r := ContactStep(c, i);
      && !r.enemies[i].alive && r.enemies[i].deathTimer == DEATH_FRAMES
      && r.p.vy == JUMP_FORCE * 0.6 && r.p.vy < 0.0
      && r.p.combo == c.p.combo + 1
      && r.score == c.score + SCORE_STOMP * (if c.p.combo + 1 < COMBO_CAP then c.p.combo + 1 else COMBO_CAP)
      && r.shake >= 3.0 + r.p.combo as real * 1.5
      && (r.p.combo > 1 ==> r.combo.combo == r.p.combo && r.combo.timer == 70.0)
    ensures var r, e := ContactStep(c, i), c.enemies[i];
      && r.p == c.p.(vy := JUMP_FORCE * 0.6, combo := c.p.combo + 1, squashX := 1.4, squashY := 0.6)
      && r.enemies == c.enemies[i := e.(alive := false, deathTimer := DEATH_FRAMES)]
      && r.popups == c.popups + [ScorePopup(r.score - c.score, e.x + e.w / 2.0, e.y, 40.0, 40.0)]
      && r.shake == AddShake(c.shake, 3.0 + r.p.combo as real * 1.5)
      && (r.p.combo > 1 ==> r.combo == ComboPopup(r.p.combo, e.x + e.w / 2.0, e.y - 15.0, 70.0))
      && (r.p.combo <= 1 ==> r.combo == c.combo)
  {
  }

  /**
   * A touch that is not a stomp, or any touch of a thorn, on a player who is
   * not invincible: the player goes back to the last safe spot at rest, is
   * invincible for 90 frames and the screen shakes by at least 6; enemies,
   * score, combo and popups stay as they were.
   */
  lemma HitEffect(c: Contact, i: int)
    requires 0 <= i < |c.enemies|
    requires c.enemies[i].alive && Overlaps(c.p, c.enemies[i])
    requires !IsStomp(c.p, c.enemies[i]) || c.enemies[i].kind.Thorn?
    requires c.p.invincibleTimer <= 0.0
    ensures var r := ContactStep(c, i);
      && r.p.x == c.p.lastSafeX && r.p.y == c.p.lastSafeY
      && r.p.vx == 0.0 && r.p.vy == 0.0
      && r.p.invincibleTimer == INVINCIBLE_FRAMES
      && r.shake >= 6.0 && r.shake >= c.shake
      && r.shake == AddShake(c.shake, 6.0)
      && r.p == c.p.(x := c.p.lastSafeX, y := c.p.lastSafeY, vx := 0.0, vy := 0.0,
                     invincibleTimer := INVINCIBLE_FRAMES)
      && r.enemies == c.enemies && r.enemies[i].alive
      && r.score == c.score && r.p.combo == c.p.combo
      && r.popups == c.popups && r.combo == c.combo
  {
  }
}
