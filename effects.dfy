/**
 * Per-frame effect state of game.js: particles, floating score popups, the
 * combo popup, screen shake and the look-ahead camera.
 *
 * The random parts (particle spawn contents, the shake offsets) and
 * `Math.pow(SHAKE_DECAY, dt)` are not modelled inside: the decay factor is a
 * parameter.
 */
module Effects {
  import Tilemap

  /** Viewport width of the game canvas, in pixels. */
  const RENDER_W: real := 400.0
  const CAM_LOOK_AHEAD: real := 25.0
  const CAM_SMOOTH: real := 0.08
  /** Per-frame particle gravity. */
  const PARTICLE_GRAVITY: real := 0.05

  datatype Particle = Particle(x: real, y: real, vx: real, vy: real, life: real,
                               maxLife: real, size: real, color: string)

  /** A floating "+points" label; `points` stands for its text. */
  datatype ScorePopup = ScorePopup(points: int, x: real, y: real, timer: real, maxTimer: real)

  /** The single "<n>x KOMBO!" label; `combo` stands for its text (0 for the empty label). */
  datatype ComboPopup = ComboPopup(combo: nat, x: real, y: real, timer: real)

  const NoComboPopup: ComboPopup := ComboPopup(0, 0.0, 0.0, 0.0)

  // ---------------- particles ----------------

  /** One particle's motion for a frame: move, mini-gravity, age. */
  function Advance(p: Particle, dt: real): Particle
  {
    p.(x := p.x + p.vx * dt, y := p.y + p.vy * dt, vy := p.vy + PARTICLE_GRAVITY * dt, life := p.life - dt)
  }

  /** The particles that are still alive after a frame, advanced, in their original order. */
  function Survivors(ps: seq<Particle>, dt: real): seq<Particle>
  {
    if ps == [] then []
    else
      var q := Advance(ps[|ps| - 1], dt);
      Survivors(ps[..|ps| - 1], dt) + (if q.life > 0.0 then [q] else [])
  }

  /** Survivors are exactly the advanced particles with life left, in order. */
  lemma {:induction false} SurvivorsFacts(ps: seq<Particle>, dt: real)
    ensures |Survivors(ps, dt)| <= |ps|
    ensures forall q :: q in Survivors(ps, dt) ==> q.life > 0.0
    ensures forall i :: 0 <= i < |ps| && Advance(ps[i], dt).life > 0.0 ==> Advance(ps[i], dt) in Survivors(ps, dt)
    ensures forall q :: q in Survivors(ps, dt) ==> exists i :: 0 <= i < |ps| && q == Advance(ps[i], dt)
  {
    if ps != [] {
      var init := ps[..|ps| - 1];
      SurvivorsFacts(init, dt);
      forall i | 0 <= i < |ps| - 1 ensures ps[i] == init[i] {}
    }
  }

  /** Survivors of a concatenation are the survivors of each part. */
  lemma {:induction false} SurvivorsAppend(a: seq<Particle>, b: seq<Particle>, dt: real)
    ensures Survivors(a + b, dt) == Survivors(a, dt) + Survivors(b, dt)
  {
    if b != [] {
      var ab := a + b;
      assert ab[..|ab| - 1] == a + b[..|b| - 1];
      assert ab[|ab| - 1] == b[|b| - 1];
      SurvivorsAppend(a, b[..|b| - 1], dt);
    } else {
      assert a + b == a;
    }
  }

  /** The first particle of a suffix, split off the rest. */
  lemma SurvivorsFront(ps: seq<Particle>, i: int, dt: real)
    requires 0 <= i < |ps|
    ensures var q := Advance(ps[i], dt);
      Survivors(ps[i..], dt) == (if q.life > 0.0 then [q] else []) + Survivors(ps[i + 1..], dt)
  {
    SurvivorsAppend([ps[i]], ps[i + 1..], dt);
    assert ps[i..] == [ps[i]] + ps[i + 1..];
    assert [ps[i]][..0] == [];
  }

  /** One step of `updateParticles`' loop: splicing out or replacing entry `i` keeps the loop invariant. */
  lemma ParticleStep(ps: seq<Particle>, r: seq<Particle>, i: int, dt: real)
    requires 0 <= i < |ps| && r == ps[..i + 1] + Survivors(ps[i + 1..], dt)
    ensures var q := Advance(r[i], dt);
      && (q.life <= 0.0 ==> r[..i] + r[i + 1..] == ps[..i] + Survivors(ps[i..], dt))
      && (q.life > 0.0 ==> r[i := q] == ps[..i] + Survivors(ps[i..], dt))
  {
    var tail := Survivors(ps[i + 1..], dt);
    assert ps[..i + 1] == ps[..i] + [ps[i]];
    assert r[..i] == ps[..i] && r[i] == ps[i] && r[i + 1..] == tail;
    SurvivorsFront(ps, i, dt);
    var q := Advance(ps[i], dt);
    if q.life > 0.0 {
      assert r[i := q] == ps[..i] + [q] + tail;
    }
  }

  /**
   * `updateParticles`: walks the list from the back, advancing each particle
   * and splicing out those whose life has run out.
   */
  method UpdateParticles(ps: seq<Particle>, dt: real) returns (r: seq<Particle>)
    ensures r == Survivors(ps, dt)
  {
    r := ps;
    var i := |ps|;
    while i > 0
      invariant 0 <= i <= |ps|
      invariant r == ps[..i] + Survivors(ps[i..], dt)
    {
      i := i - 1;
      ParticleStep(ps, r, i, dt);
      var q := Advance(r[i], dt);
      if q.life <= 0.0 {
        r := r[..i] + r[i + 1..];
      } else {
        r := r[i := q];
      }
    }
    assert ps[0..] == ps;
  }

  // ---------------- score popups ----------------

  /** The popups still showing after their timers run down by `dt`, in order. */
  function LivePopups(ps: seq<ScorePopup>, dt: real): seq<ScorePopup>
  {
    if ps == [] then []
    else
      var q := ps[|ps| - 1].(timer := ps[|ps| - 1].timer - dt);
      LivePopups(ps[..|ps| - 1], dt) + (if q.timer > 0.0 then [q] else [])
  }

  lemma {:induction false} LivePopupsAppend(a: seq<ScorePopup>, b: seq<ScorePopup>, dt: real)
    ensures LivePopups(a + b, dt) == LivePopups(a, dt) + LivePopups(b, dt)
  {
    if b != [] {
      var ab := a + b;
      assert ab[..|ab| - 1] == a + b[..|b| - 1];
      assert ab[|ab| - 1] == b[|b| - 1];
      LivePopupsAppend(a, b[..|b| - 1], dt);
    } else {
      assert a + b == a;
    }
  }

  /** Every live popup has time left, and a popup with more than `dt` left survives. */
  lemma {:induction false} LivePopupsFacts(ps: seq<ScorePopup>, dt: real)
    ensures |LivePopups(ps, dt)| <= |ps|
    ensures forall q :: q in LivePopups(ps, dt) ==> q.timer > 0.0
    ensures (forall i :: 0 <= i < |ps| ==> ps[i].timer > dt) ==> |LivePopups(ps, dt)| == |ps|
  {
    if ps != [] {
      LivePopupsFacts(ps[..|ps| - 1], dt);
    }
  }

  /** The first popup of a suffix, split off the rest. */
  lemma LivePopupsFront(ps: seq<ScorePopup>, i: int, dt: real)
    requires 0 <= i < |ps|
    ensures var q := ps[i].(timer := ps[i].timer - dt);
      LivePopups(ps[i..], dt) == (if q.timer > 0.0 then [q] else []) + LivePopups(ps[i + 1..], dt)
  {
    LivePopupsAppend([ps[i]], ps[i + 1..], dt);
    assert ps[i..] == [ps[i]] + ps[i + 1..];
    assert [ps[i]][..0] == [];
  }

  /** One step of `updateScorePopups`' loop: splicing out or replacing entry `i` keeps the loop invariant. */
  lemma PopupStep(ps: seq<ScorePopup>, r: seq<ScorePopup>, i: int, dt: real)
    requires 0 <= i < |ps| && r == ps[..i + 1] + LivePopups(ps[i + 1..], dt)
    ensures var q := r[i].(timer := r[i].timer - dt);
      && (q.timer <= 0.0 ==> r[..i] + r[i + 1..] == ps[..i] + LivePopups(ps[i..], dt))
      && (q.timer > 0.0 ==> r[i := q] == ps[..i] + LivePopups(ps[i..], dt))
  {
    var tail := LivePopups(ps[i + 1..], dt);
    assert ps[..i + 1] == ps[..i] + [ps[i]];
    assert r[..i] == ps[..i] && r[i] == ps[i] && r[i + 1..] == tail;
    LivePopupsFront(ps, i, dt);
    var q := ps[i].(timer := ps[i].timer - dt);
    if q.timer > 0.0 {
      assert r[i := q] == ps[..i] + [q] + tail;
    }
  }

  /** `updateScorePopups`: back-to-front countdown with removal at zero. */
  method UpdateScorePopups(ps: seq<ScorePopup>, dt: real) returns (r: seq<ScorePopup>)
    ensures r == LivePopups(ps, dt)
  {
    r := ps;
    var i := |ps|;
    while i > 0
      invariant 0 <= i <= |ps|
      invariant r == ps[..i] + LivePopups(ps[i..], dt)
    {
      i := i - 1;
      PopupStep(ps, r, i, dt);
      var q := r[i].(timer := r[i].timer - dt);
      if q.timer <= 0.0 {
        r := r[..i] + r[i + 1..];
      } else {
        r := r[i := q];
      }
    }
    assert ps[0..] == ps;
  }

  /** The combo label counts down while showing and stays put once expired. */
  function TickCombo(c: ComboPopup, dt: real): (r: ComboPopup)
    ensures c.timer > 0.0 ==> r.timer == c.timer - dt
    ensures c.timer <= 0.0 ==> r == c
    ensures r.combo == c.combo && r.x == c.x && r.y == c.y
  {
    if c.timer > 0.0 then c.(timer := c.timer - dt) else c
  }

  // ---------------- screen shake ----------------

  /** `addShake`: the stronger of the current and the new intensity wins. */
  function AddShake(intensity: real, amount: real): (r: real)
    ensures r >= intensity && r >= amount
    ensures r == intensity || r == amount
  {
    if amount > intensity then amount else intensity
  }

  /**
   * `updateShake`'s intensity: above 0.1 it decays by the factor
   * `decayPow` (= `SHAKE_DECAY^dt`), otherwise it is cut to 0.
   */
  function DecayShake(intensity: real, decayPow: real): (r: real)
    ensures intensity > 0.1 && 0.0 <= decayPow <= 1.0 ==> 0.0 <= r <= intensity
    ensures intensity <= 0.1 ==> r == 0.0
  {
    if intensity > 0.1 then intensity * decayPow else 0.0
  }

  /** With a decay factor at most `f < 1` per frame, the shake is gone after enough frames. */
  function ShakeAfter(intensity: real, decayPow: real, n: nat): real
  {
    if n == 0 then intensity else DecayShake(ShakeAfter(intensity, decayPow, n - 1), decayPow)
  }

  /** Shake never grows on its own and stays non-negative. */
  lemma {:induction false} ShakeSettles(intensity: real, decayPow: real, n: nat)
    requires intensity >= 0.0 && 0.0 <= decayPow <= 1.0
    ensures 0.0 <= ShakeAfter(intensity, decayPow, n) <= intensity
    ensures n > 0 && intensity <= 0.1 ==> ShakeAfter(intensity, decayPow, n) == 0.0
  {
    if n > 0 {
      ShakeSettles(intensity, decayPow, n - 1);
      var prev := ShakeAfter(intensity, decayPow, n - 1);
      if prev > 0.1 {
        assert prev * decayPow <= prev * 1.0;
      }
    }
  }

  // ---------------- camera ----------------

  /** The camera's clamp: `max(0, min(levelWidthPx - RENDER_W, x))`. */
  function ClampCamera(x: real, levelWidthPx: real): (r: real)
    ensures r >= 0.0
    ensures levelWidthPx - RENDER_W >= 0.0 ==> r <= levelWidthPx - RENDER_W
    ensures levelWidthPx - RENDER_W <= 0.0 ==> r == 0.0
    ensures 0.0 <= x <= levelWidthPx - RENDER_W ==> r == x
    ensures x < 0.0 ==> r == 0.0
    ensures levelWidthPx - RENDER_W >= 0.0 && x > levelWidthPx - RENDER_W ==> r == levelWidthPx - RENDER_W
  {
    var m := if levelWidthPx - RENDER_W < x then levelWidthPx - RENDER_W else x;
    if m < 0.0 then 0.0 else m
  }

  /** Where the camera wants to be: the player centred, plus the look-ahead on the facing side. */
  function CameraTarget(playerX: real, facing: int): real
  {
    playerX - RENDER_W / 2.0 + Tilemap.PLAYER_W / 2.0 + facing as real * CAM_LOOK_AHEAD
  }

  /** `updateCamera`: eases toward the target by `CAM_SMOOTH * dt` of the gap, then clamps to the level. */
  function CameraStep(camX: real, target: real, levelWidthPx: real, dt: real): (r: real)
    ensures r >= 0.0
    ensures levelWidthPx >= RENDER_W ==> r <= levelWidthPx - RENDER_W
  {
    ClampCamera(camX + (target - camX) * (CAM_SMOOTH * dt), levelWidthPx)
  }

  /**
   * The easing never overshoots: with `0 <= CAM_SMOOTH * dt <= 1` and a target
   * inside the level, the camera ends between where it was and the target.
   */
  lemma CameraApproaches(camX: real, target: real, levelWidthPx: real, dt: real)
    requires 0.0 <= CAM_SMOOTH * dt <= 1.0
    requires 0.0 <= camX <= levelWidthPx - RENDER_W
    requires 0.0 <= target <= levelWidthPx - RENDER_W
    ensures var r := CameraStep(camX, target, levelWidthPx, dt);
      (camX <= target ==> camX <= r <= target) && (target <= camX ==> target <= r <= camX)
  {
    var k := CAM_SMOOTH * dt;
    var eased := camX + (target - camX) * k;
    assert eased == camX + Scale(target - camX, k);
    if camX <= target {
      ScaleDown(target - camX, k);
    } else {
      ScaleDown(camX - target, k);
      ScaleNegated(camX - target, k);
      assert -(camX - target) == target - camX;
    }
    assert ClampCamera(eased, levelWidthPx) == eased;
  }

  /** A product kept whole, so that the arithmetic facts below apply to it as a unit. */
  function Scale(d: real, k: real): real { d * k }

  /** A non-negative amount scaled by a factor in [0, 1] stays between 0 and itself. */
  lemma ScaleDown(d: real, k: real)
    requires d >= 0.0 && 0.0 <= k <= 1.0
    ensures 0.0 <= Scale(d, k) <= d
  {
    assert d * (1.0 - k) >= 0.0;
  }

  lemma ScaleNegated(d: real, k: real)
    ensures Scale(-d, k) == -Scale(d, k)
  {
  }

  /** `loadLevel`'s camera: the player centred, not left of the level. */
  function CameraReset(playerX: real): (r: real)
    ensures r >= 0.0
    ensures playerX >= RENDER_W / 2.0 ==> r + RENDER_W / 2.0 == playerX
    ensures playerX <= RENDER_W / 2.0 ==> r == 0.0
  {
    if playerX - RENDER_W / 2.0 > 0.0 then playerX - RENDER_W / 2.0 else 0.0
  }
}
