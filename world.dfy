/*
 * The module-level state of game.js and the code that drives it: the screen
 * state machine (`setState`, `transitionTo`, the button handlers, the finale
 * music timer), `loadLevel`, and the per-frame `gameLoop`/`update` that chains
 * the player, enemy, camera, particle, heart and portal passes of the other
 * modules. Music goes through the shared `Audio.AudioManager`.
 */
module World {
  import opened Wrappers
  import opened Levels
  import opened Tilemap
  import opened PlayerPhysics
  import opened Collision
  import opened Enemies
  import opened Pickups
  import opened Effects
  import Audio

  /** The `STATE` enum. */
  datatype GameState = Loading | Title | LevelIntro | Playing | LevelComplete | MemoryCard | Finale

  /** The callbacks handed to `transitionTo` by the buttons and the level-complete screen. */
  datatype Callback = StartGame | Continue | Replay | ShowMemory

  /**
   * The transition overlay: fading in with a callback to run once the screen is
   * covered (after 450 ms), then fading out (120 ms more) until it is idle again.
   */
  datatype Transition = Inactive | Covering(callback: Callback) | Uncovering

  /** Frames the level intro stays up before play starts. */
  const INTRO_FRAMES: real := 150.0
  /** Frames the level-complete celebration runs before the memory card. */
  const COMPLETE_FRAMES: real := 120.0
  /** Milliseconds per frame at 60 fps, the unit of `dt`. */
  const FRAME_MS: real := 16.667

  /** The player object as game.js declares it, before any level is loaded. */
  const InitialPlayer: Player := Player(0.0, 0.0, 0.0, 0.0, false, 1, Idle, 0, 0.0, 0.0, 0.0, 0.0, 0.0, 1.0, 1.0, 0, false)

  /** `Math.min((timestamp - lastTime) / 16.667, 3)`. */
  function FrameDelta(timestamp: real, lastTime: real): (dt: real)
    ensures dt <= MAX_DT
    ensures lastTime <= timestamp ==> 0.0 <= dt
    ensures (timestamp - lastTime) / FRAME_MS <= MAX_DT ==> dt * FRAME_MS == timestamp - lastTime
  {
    var elapsed := (timestamp - lastTime) / FRAME_MS;
    if elapsed < MAX_DT then elapsed else MAX_DT
  }

  /** The music the mute button restarts on each screen: the level's theme while playing. */
  function ScreenMusic(state: GameState, levelTheme: string): Option<string>
  {
    match state
    case Playing => Some(levelTheme)
    case Title => Some("title")
    case MemoryCard => Some("memory")
    case Finale => Some("finale")
    case _ => None
  }

  // ---------------- the player's frame, as values ----------------

  /**
   * The player's move through the level: the input, jump and gravity phase, the
   * horizontal move with `resolveCollisionX`, then the vertical sub-steps.
   */
  function Moved(level: Level, p: Player, input: Input, dt: real, frictionPow: real): Player
  {
    Collide(level, PrepareMove(p, input, dt, frictionPow), dt)
  }

  /** The distance covered in one frame at velocity `v`. */
  function Travel(v: real, dt: real): real
  {
    v * dt
  }

  /** The horizontal move with `resolveCollisionX`, then the vertical sub-steps. */
  function Collide(level: Level, q: Player, dt: real): Player
  {
    var h := ResolveX(level, Horizontal(q.x + Travel(q.vx, dt), q.vx), q.y);
    var v := VerticalMove(level, h.pos, Vertical(q.y, q.vy, q.onGround), Travel(q.vy, dt));
    q.(x := h.pos, vx := h.vel, y := v.pos, vy := v.vel, onGround := v.grounded)
  }

  /** The player after landing, squash recovery and the horizontal level bounds, before the fall check. */
  function Kept(level: Level, p: Player, input: Input, dt: real, frictionPow: real): Player
  {
    KeepInLevel(Relax(Land(Moved(level, p, input, dt, frictionPow), p.onGround, dt), dt), level.width)
  }

  /**
   * All of `updatePlayer` on the state it reads and writes: the move, the fall
   * safety net (with its shake of 3), the safe-spot update and the contact pass
   * over the enemies.
   */
  function PlayerUpdate(level: Level, c: Contact, input: Input, dt: real, frictionPow: real): Contact
  {
    var kept := Kept(level, c.p, input, dt, frictionPow);
    var shake := if FellOut(kept, level.height) then AddShake(c.shake, 3.0) else c.shake;
    Contacts(c.(p := SaveSafe(Respawn(kept, level.height)), shake := shake), |c.enemies|)
  }

  /** The contact pass leaves the jump timers alone and never lowers the shake. */
  lemma {:induction false} ContactsKeepTimers(c: Contact, n: int)
    requires 0 <= n <= |c.enemies|
    ensures var r := Contacts(c, n);
      r.p.coyoteTimer == c.p.coyoteTimer && r.p.jumpBufferTimer == c.p.jumpBufferTimer && r.shake >= c.shake
    decreases n
  {
    if n > 0 {
      ContactStepKeepsLength(c, n - 1);
      ContactsKeepTimers(ContactStep(c, n - 1), n - 1);
    }
  }

  /**
   * Across a whole player update: the score never drops, enemies are neither
   * added nor removed, a dead enemy stays dead and a thorn is untouched, the
   * number of live enemies never grows, the shake never drops, and with a frame
   * delta in [0, 3] the coyote and jump-buffer timers stay in range.
   */
  lemma PlayerUpdateOutcome(level: Level, c: Contact, input: Input, dt: real, frictionPow: real)
    ensures var r := PlayerUpdate(level, c, input, dt, frictionPow);
      && |r.enemies| == |c.enemies|
      && r.score >= c.score
      && CountAlive(r.enemies) <= CountAlive(c.enemies)
      && (forall j :: 0 <= j < |c.enemies| && !c.enemies[j].alive ==> !r.enemies[j].alive)
      && (forall j :: 0 <= j < |c.enemies| && c.enemies[j].kind.Thorn? ==> r.enemies[j] == c.enemies[j])
      && r.shake >= c.shake
      && (0.0 <= dt <= MAX_DT && TimersInRange(c.p) ==> TimersInRange(r.p))
  {
    var kept := Kept(level, c.p, input, dt, frictionPow);
    var shake := if FellOut(kept, level.height) then AddShake(c.shake, 3.0) else c.shake;
    var start := c.(p := SaveSafe(Respawn(kept, level.height)), shake := shake);
    ContactsOutcome(start, |c.enemies|);
    ContactsKeepTimers(start, |c.enemies|);
    if 0.0 <= dt <= MAX_DT && TimersInRange(c.p) {
      var moved := Moved(level, c.p, input, dt, frictionPow);
      TimersStayInRange(c.p, input, dt, frictionPow, moved, level.width, level.height);
      assert start.p == FinishMove(moved, c.p.onGround, dt, level.width, level.height);
    }
  }

  /** `resolveCollisionX` on a horizontal state, specified by `ResolveX`. */
  method Slide(level: Level, s: Horizontal, y: real) returns (h: Horizontal)
    ensures h == ResolveX(level, s, y)
  {
    var x, vx := ResolveCollisionX(level, s.pos, s.vel, y);
    h := Horizontal(x, vx);
  }

  /** The move of `updatePlayer`: `resolveCollisionX`, then the sub-step loop. */
  method CollidePlayer(level: Level, q: Player, dt: real) returns (moved: Player)
    ensures moved == Collide(level, q, dt)
  {
    var h := Slide(level, Horizontal(q.x + Travel(q.vx, dt), q.vx), q.y);
    var fall := Vertical(q.y, q.vy, q.onGround);
    var v := MoveVertical(level, h.pos, fall, Travel(q.vy, dt));
    moved := q.(x := h.pos, vx := h.vel, y := v.pos, vy := v.vel, onGround := v.grounded);
  }

  /** `updatePlayer`: the move, the fall check with its shake, then the loop over the enemies. */
  method PlayerFrame(level: Level, c: Contact, input: Input, dt: real, frictionPow: real) returns (r: Contact)
    ensures r == PlayerUpdate(level, c, input, dt, frictionPow)
    ensures r.score >= c.score && r.shake >= c.shake
    ensures |r.enemies| == |c.enemies| && CountAlive(r.enemies) <= CountAlive(c.enemies)
    ensures 0.0 <= dt <= MAX_DT && TimersInRange(c.p) ==> TimersInRange(r.p)
  {
    PlayerUpdateOutcome(level, c, input, dt, frictionPow);
    var moved := CollidePlayer(level, PrepareMove(c.p, input, dt, frictionPow), dt);
    var kept := KeepInLevel(Relax(Land(moved, c.p.onGround, dt), dt), level.width);
    var shake := c.shake;
    if FellOut(kept, level.height) {
      shake := AddShake(shake, 3.0);
    }
    r := ResolveContacts(c.(p := SaveSafe(Respawn(kept, level.height)), shake := shake));
  }

  // ---------------- the game ----------------

  class Game {
    var state: GameState
    var stateTimer: real
    var frame: nat
    var lastTime: real
    var currentLevel: nat
    var score: int
    var player: Player
    var camera: real
    var collected: set<(int, int)>
    var particles: seq<Particle>
    var enemies: seq<Enemy>
    var shake: real
    var transition: Transition
    var popups: seq<ScorePopup>
    var combo: ComboPopup
    /** A pending `finaleTimeout`. */
    var finalePending: bool
    /** The one-shot "start audio on first interaction" listeners are still attached. */
    var audioArmed: bool
    /** `LEVELS`, after the post-pass. */
    const levels: seq<Level>
    const audio: Audio.AudioManager

    /**
     * The level index is in range, the audio manager is consistent, the finale
     * timer only ever waits on the finale screen, the camera is never left of
     * the level and the score is never negative.
     */
    ghost predicate Valid()
      reads this, audio
    {
      && |levels| > 0
      && currentLevel < |levels|
      && audio.Valid()
      && (finalePending ==> state == Finale)
      && camera >= 0.0
      && score >= 0
    }

    /** The script's start-up: the loading screen, nothing played yet. */
    constructor(levels: seq<Level>, audio: Audio.AudioManager)
      requires |levels| > 0 && audio.Valid()
      ensures Valid()
      ensures this.levels == levels && this.audio == audio
      ensures state == Loading && stateTimer == 0.0 && frame == 0 && lastTime == -1.0
      ensures currentLevel == 0 && score == 0 && player == InitialPlayer && camera == 0.0
      ensures collected == {} && particles == [] && enemies == [] && popups == []
      ensures shake == 0.0 && transition == Inactive && combo == NoComboPopup && !finalePending && audioArmed
    {
      this.levels := levels;
      this.audio := audio;
      state := Loading;
      stateTimer := 0.0;
      frame := 0;
      lastTime := -1.0;
      currentLevel := 0;
      score := 0;
      player := InitialPlayer;
      camera := 0.0;
      collected := {};
      particles := [];
      enemies := [];
      shake := 0.0;
      transition := Inactive;
      popups := [];
      combo := NoComboPopup;
      finalePending := false;
      audioArmed := true;
    }

    /**
     * `setState`: the new screen starts its timer at 0 and cancels the finale
     * timer. The level intro, level complete and finale screens stop the music;
     * the memory card switches to the memory theme; the finale arms its 2-second
     * music timer. Title and playing leave the music alone.
     */
    method SetState(s: GameState, clock: real)
      requires Valid()
      modifies this`state, this`stateTimer, this`finalePending, audio
      ensures Valid()
      ensures state == s && stateTimer == 0.0
      ensures finalePending <==> s == Finale
      ensures s.LevelIntro? || s.LevelComplete? || s.Finale? ==> audio.timers == map[] && audio.currentBGM.None?
      ensures s.MemoryCard? && audio.hasContext ==> audio.currentBGM == Some("memory")
      ensures s.Loading? || s.Title? || s.Playing? ==> unchanged(audio)
      ensures audio.hasContext == old(audio.hasContext) && audio.muted == old(audio.muted)
    {
      state := s;
      stateTimer := 0.0;
      finalePending := s == Finale;
      ScreenAudio(s, clock);
    }

    /** The music side of `setState`: silence for the intro, level-complete and finale screens, the memory tune for a memory card. */
    method ScreenAudio(s: GameState, clock: real)
      requires audio.Valid()
      modifies audio
      ensures audio.Valid()
      ensures s.LevelIntro? || s.LevelComplete? || s.Finale? ==> audio.timers == map[] && audio.currentBGM.None?
      ensures s.MemoryCard? && audio.hasContext ==> audio.currentBGM == Some("memory")
      ensures s.Loading? || s.Title? || s.Playing? ==> unchanged(audio)
      ensures audio.hasContext == old(audio.hasContext) && audio.muted == old(audio.muted)
    {
      match s {
        case LevelIntro =>
          audio.StopBGM();
        case LevelComplete =>
          audio.StopBGM();
        case MemoryCard =>
          audio.StopBGM();
          audio.PlayBGM("memory", clock);
        case Finale =>
          audio.StopBGM();
        case _ =>
      }
    }

    /** The loading screen's two timeouts ending: on to the title screen. */
    method LoadingFinished(clock: real)
      requires Valid()
      modifies this`state, this`stateTimer, this`finalePending, audio
      ensures Valid()
      ensures state == Title && stateTimer == 0.0 && !finalePending
      ensures unchanged(audio)
    {
      SetState(Title, clock);
    }

    /**
     * `startAudioOnce`, on the first click, key or touch: create and resume the
     * audio context and, on the title screen with nothing playing, start the
     * title music. Later interactions do nothing.
     */
    method FirstInteraction(available: bool, startsSuspended: bool, clock: real)
      requires Valid()
      modifies this`audioArmed, audio
      ensures Valid()
      ensures !audioArmed
      ensures !old(audioArmed) ==> unchanged(audio)
      ensures old(audioArmed) && state == Title && old(audio.currentBGM).None? && audio.hasContext ==>
                audio.currentBGM == Some("title")
      ensures old(audioArmed) && old(audio.currentBGM).Some? ==> audio.currentBGM == old(audio.currentBGM)
    {
      if audioArmed {
        audioArmed := false;
        audio.Init(available, startsSuspended);
        audio.Resume();
        if state == Title && audio.currentBGM.None? {
          audio.PlayBGM("title", clock);
        }
      }
    }

    /** A key press asks the audio context to resume. */
    method KeyPressed()
      requires Valid()
      modifies audio`resumePending
      ensures Valid()
      ensures audio.resumePending == (old(audio.resumePending) || (audio.hasContext && audio.suspended))
    {
      audio.Resume();
    }

    /** Everything `loadLevel(index)` sets: level, player, camera, cleared collections and the spawned enemies. */
    ghost predicate Loaded(index: nat)
      reads this
    {
      && index < |levels|
      && currentLevel == index
      && player == Spawned(levels[index].startCol, levels[index].startRow)
      && camera == CameraReset(player.x)
      && collected == {} && particles == [] && popups == [] && combo == NoComboPopup
      && |enemies| == |levels[index].enemies|
      && (forall i :: 0 <= i < |enemies| ==> enemies[i] == Spawn(levels[index].enemies[i], index))
    }

    /** The music as the intro and finale screens leave it: no loop and no theme. */
    ghost predicate MusicStopped()
      reads audio
    {
      audio.timers == map[] && audio.currentBGM.None?
    }

    /**
     * `loadLevel`: the player back at the level's start cell and at rest, the
     * camera centred on them, the collected hearts, particles, popups and combo
     * label cleared, and the level's enemies spawned at this level's difficulty.
     */
    method LoadLevel(index: nat)
      requires Valid() && index < |levels|
      modifies this`currentLevel, this`player, this`camera, this`collected, this`particles,
               this`popups, this`combo, this`enemies
      ensures Valid()
      ensures currentLevel == index
      ensures player == Spawned(levels[index].startCol, levels[index].startRow)
      ensures camera == CameraReset(player.x)
      ensures collected == {} && particles == [] && popups == [] && combo == NoComboPopup
      ensures |enemies| == |levels[index].enemies|
      ensures forall i :: 0 <= i < |enemies| ==> enemies[i] == Spawn(levels[index].enemies[i], index)
      ensures Loaded(index)
    {
      currentLevel := index;
      var level := levels[index];
      ResetRun(level.startCol, level.startRow);
      enemies := SpawnEnemies(level.enemies, index);
    }

    /** The per-level part of `loadLevel` that does not depend on the map: player, camera, collections. */
    method ResetRun(startCol: int, startRow: int)
      modifies this`player, this`camera, this`collected, this`particles, this`popups, this`combo
      ensures player == Spawned(startCol, startRow) && camera == CameraReset(player.x)
      ensures collected == {} && particles == [] && popups == [] && combo == NoComboPopup
    {
      player := Spawned(startCol, startRow);
      camera := CameraReset(player.x);
      collected := {};
      particles := [];
      popups := [];
      combo := NoComboPopup;
    }

    /** `transitionTo`: ignored while a transition runs, otherwise starts covering the screen. */
    method TransitionTo(callback: Callback)
      modifies this`transition
      ensures old(transition).Inactive? ==> transition == Covering(callback)
      ensures !old(transition).Inactive? ==> transition == old(transition)
    {
      if transition.Inactive? {
        transition := Covering(callback);
      }
    }

    /**
     * The 450 ms timer of a transition: with the screen covered, the callback
     * runs and the overlay starts fading out.
     *  - start: score 0, level 0 loaded, its intro shown;
     *  - continue: the next level's intro, or the finale after the last level;
     *  - replay: title music, then the title screen;
     *  - after a level: the memory card.
     */
    method TransitionCovered(clock: real)
      requires Valid()
      modifies this`score, this`currentLevel, this`player, this`camera, this`collected, this`particles,
               this`popups, this`combo, this`enemies, this`state, this`stateTimer, this`finalePending,
               this`transition, audio
      ensures Valid()
      ensures !old(transition).Covering? ==> unchanged(this) && unchanged(audio)
      ensures old(transition).Covering? ==> transition == Uncovering && stateTimer == 0.0
      ensures audio.hasContext == old(audio.hasContext) && audio.muted == old(audio.muted)
      ensures old(transition) == Covering(StartGame) ==>
                score == 0 && Loaded(0) && state == LevelIntro && !finalePending && MusicStopped()
      ensures old(transition) == Covering(Continue) && old(currentLevel) + 1 < |levels| ==>
                Loaded(old(currentLevel) + 1) && state == LevelIntro && !finalePending && score == old(score) &&
                MusicStopped()
      ensures old(transition) == Covering(Continue) && old(currentLevel) + 1 >= |levels| ==>
                state == Finale && finalePending && score == old(score) && MusicStopped() &&
                currentLevel == old(currentLevel) && player == old(player) && enemies == old(enemies) &&
                collected == old(collected) && camera == old(camera)
      ensures old(transition).Covering? && !old(transition).callback.StartGame? && !old(transition).callback.Continue? ==>
                score == old(score) && currentLevel == old(currentLevel) && player == old(player) &&
                enemies == old(enemies) && collected == old(collected) && camera == old(camera) &&
                particles == old(particles) && popups == old(popups) && combo == old(combo) && !finalePending
      ensures old(transition) == Covering(Replay) ==>
                state == Title && (audio.hasContext ==> audio.currentBGM == Some("title"))
      ensures old(transition) == Covering(ShowMemory) ==>
                state == MemoryCard && (audio.hasContext ==> audio.currentBGM == Some("memory"))
    {
      if !transition.Covering? {
        return;
      }
      match transition.callback {
        case StartGame =>
          StartRun(clock);
        case Continue =>
          NextLevel(clock);
        case Replay =>
          audio.PlayBGM("title", clock);
          SetState(Title, clock);
        case ShowMemory =>
          SetState(MemoryCard, clock);
      }
      transition := Uncovering;
    }

    /** The start button's callback: score 0, level 0 loaded, its intro shown. */
    method StartRun(clock: real)
      requires Valid()
      modifies this`score, this`currentLevel, this`player, this`camera, this`collected, this`particles,
               this`popups, this`combo, this`enemies, this`state, this`stateTimer, this`finalePending, audio
      ensures Valid()
      ensures score == 0 && currentLevel == 0 && state == LevelIntro && stateTimer == 0.0 && !finalePending
      ensures player == Spawned(levels[0].startCol, levels[0].startRow)
      ensures Loaded(0) && MusicStopped()
      ensures audio.hasContext == old(audio.hasContext) && audio.muted == old(audio.muted)
    {
      score := 0;
      LoadLevel(0);
      SetState(LevelIntro, clock);
    }

    /** The continue button's callback: the next level's intro, or the finale after the last level. */
    method NextLevel(clock: real)
      requires Valid()
      modifies this`currentLevel, this`player, this`camera, this`collected, this`particles,
               this`popups, this`combo, this`enemies, this`state, this`stateTimer, this`finalePending, audio
      ensures Valid()
      ensures old(currentLevel) + 1 < |levels| ==>
                currentLevel == old(currentLevel) + 1 && state == LevelIntro && !finalePending &&
                player == Spawned(levels[currentLevel].startCol, levels[currentLevel].startRow) &&
                Loaded(old(currentLevel) + 1)
      ensures old(currentLevel) + 1 >= |levels| ==>
                currentLevel == old(currentLevel) && state == Finale && finalePending &&
                player == old(player) && enemies == old(enemies) && collected == old(collected) &&
                camera == old(camera) && particles == old(particles) && popups == old(popups) && combo == old(combo)
      ensures stateTimer == 0.0 && MusicStopped()
      ensures audio.hasContext == old(audio.hasContext) && audio.muted == old(audio.muted)
    {
      if currentLevel + 1 < |levels| {
        LoadLevel(currentLevel + 1);
        SetState(LevelIntro, clock);
      } else {
        SetState(Finale, clock);
      }
    }

    /** The 120 ms timer after the callback: the overlay is gone and transitions are accepted again. */
    method TransitionUncovered()
      modifies this`transition
      ensures old(transition).Uncovering? ==> transition == Inactive
      ensures !old(transition).Uncovering? ==> transition == old(transition)
    {
      if transition.Uncovering? {
        transition := Inactive;
      }
    }

    /** The start button: audio up, music stopped, then the start transition. */
    method StartPressed(available: bool, startsSuspended: bool)
      requires Valid()
      modifies this`transition, audio
      ensures Valid()
      ensures audio.timers == map[] && audio.currentBGM.None?
      ensures old(transition).Inactive? ==> transition == Covering(StartGame)
      ensures !old(transition).Inactive? ==> transition == old(transition)
    {
      audio.Init(available, startsSuspended);
      audio.Resume();
      audio.StopBGM();
      TransitionTo(StartGame);
    }

    /** The memory card's continue button. */
    method ContinuePressed()
      modifies this`transition
      ensures old(transition).Inactive? ==> transition == Covering(Continue)
      ensures !old(transition).Inactive? ==> transition == old(transition)
    {
      TransitionTo(Continue);
    }

    /** The replay button: the finale timer cancelled and the music stopped, then the replay transition. */
    method ReplayPressed()
      requires Valid()
      modifies this`transition, this`finalePending, audio
      ensures Valid()
      ensures !finalePending && audio.timers == map[] && audio.currentBGM.None?
      ensures old(transition).Inactive? ==> transition == Covering(Replay)
      ensures !old(transition).Inactive? ==> transition == old(transition)
    {
      finalePending := false;
      audio.StopBGM();
      TransitionTo(Replay);
    }

    /**
     * The mute button: audio up, mute toggled; on unmuting, the music of the
     * current screen starts again (loading, intro and level-complete have none).
     */
    method MutePressed(available: bool, startsSuspended: bool, clock: real)
      requires Valid()
      modifies audio
      ensures Valid()
      ensures audio.muted == !old(audio.muted)
      ensures audio.muted ==> audio.timers == map[] && audio.currentBGM.None?
      ensures !audio.muted && audio.hasContext && ScreenMusic(state, levels[currentLevel].theme).Some? ==>
                audio.currentBGM == ScreenMusic(state, levels[currentLevel].theme)
      ensures !audio.muted && ScreenMusic(state, levels[currentLevel].theme).None? ==>
                audio.currentBGM == old(audio.currentBGM)
    {
      audio.Init(available, startsSuspended);
      var muted := audio.ToggleMute();
      if !muted {
        var music := ScreenMusic(state, levels[currentLevel].theme);
        if music.Some? {
          audio.PlayBGM(music.value, clock);
        }
      }
    }

    /** The finale's 2-second timer: the finale music starts (the screen is always still the finale). */
    method FinaleTimeoutFired(clock: real)
      requires Valid()
      modifies this`finalePending, audio
      ensures Valid()
      ensures !finalePending
      ensures !old(finalePending) ==> unchanged(audio)
      ensures old(finalePending) ==> state == Finale
      ensures old(finalePending) && audio.hasContext ==> audio.currentBGM == Some("finale")
    {
      if finalePending {
        if state == Finale {
          audio.PlayBGM("finale", clock);
        }
        finalePending := false;
      }
    }

    // ---------------- the frame ----------------

    /**
     * `gameLoop`: the frame delta in 60 fps frames, capped at 3 (0 on the first
     * frame), then the frame counter, the screen timer and `update`.
     */
    method Frame(timestamp: real, input: Input, frictionPow: real, decayPow: real, clock: real)
      requires Valid()
      modifies this, audio
      ensures Valid()
      ensures lastTime == timestamp && frame == old(frame) + 1
      ensures score >= old(score) && currentLevel == old(currentLevel)
      ensures state == old(state) || (old(state).LevelIntro? && state.Playing?) ||
              (old(state).Playing? && state.LevelComplete?)
    {
      if lastTime < 0.0 {
        lastTime := timestamp;
      }
      var dt := FrameDelta(timestamp, lastTime);
      lastTime := timestamp;
      frame := frame + 1;
      stateTimer := stateTimer + dt;
      Update(dt, input, frictionPow, decayPow, clock);
    }

    /**
     * `update`: shake, score popups and the combo label always tick, then the
     * screen's own work (intro, play or level-complete; the other screens have none).
     */
    method Update(dt: real, input: Input, frictionPow: real, decayPow: real, clock: real)
      requires Valid()
      modifies this, audio
      ensures Valid()
      ensures score >= old(score) && currentLevel == old(currentLevel)
      ensures lastTime == old(lastTime) && frame == old(frame)
      ensures state == old(state) || (old(state).LevelIntro? && state.Playing?) ||
              (old(state).Playing? && state.LevelComplete?)
      ensures old(state).LevelIntro? ==> (state.Playing? <==> old(stateTimer) > INTRO_FRAMES)
      ensures old(state).LevelIntro? && state.Playing? && audio.hasContext ==>
                audio.currentBGM == Some(levels[currentLevel].theme)
      ensures old(state).Playing? && state.LevelComplete? ==>
                score >= old(score) + SCORE_LEVEL && audio.currentBGM.None?
      ensures old(state).LevelComplete? && old(stateTimer) > COMPLETE_FRAMES && old(transition).Inactive? ==>
                transition == Covering(ShowMemory)
      ensures old(state).Playing? && 0.0 <= dt <= MAX_DT && TimersInRange(old(player)) ==>
                TimersInRange(player)
      ensures !old(state).Playing? ==> player == old(player) && enemies == old(enemies)
    {
      Tick(dt, decayPow);
      ScreenStep(dt, input, frictionPow, clock);
    }

    /** The part of `update` every screen runs: the shake decays, score popups and the combo label count down. */
    method Tick(dt: real, decayPow: real)
      modifies this`shake, this`popups, this`combo
      ensures shake == DecayShake(old(shake), decayPow)
      ensures popups == LivePopups(old(popups), dt) && combo == TickCombo(old(combo), dt)
    {
      shake := DecayShake(shake, decayPow);
      popups := UpdateScorePopups(popups, dt);
      combo := TickCombo(combo, dt);
    }

    /** The screen's own part of `update`: intro, play or level-complete; the other screens have none. */
    method ScreenStep(dt: real, input: Input, frictionPow: real, clock: real)
      requires Valid()
      modifies this`player, this`enemies, this`score, this`popups, this`combo, this`shake, this`camera,
               this`particles, this`collected, this`state, this`stateTimer, this`finalePending,
               this`transition, audio
      ensures Valid()
      ensures score >= old(score)
      ensures state == old(state) || (old(state).LevelIntro? && state.Playing?) ||
              (old(state).Playing? && state.LevelComplete?)
      ensures old(state).LevelIntro? ==> (state.Playing? <==> old(stateTimer) > INTRO_FRAMES)
      ensures old(state).LevelIntro? && state.Playing? && audio.hasContext ==>
                audio.currentBGM == Some(levels[currentLevel].theme)
      ensures old(state).Playing? && state.LevelComplete? ==>
                score >= old(score) + SCORE_LEVEL && audio.currentBGM.None?
      ensures old(state).LevelComplete? && old(stateTimer) > COMPLETE_FRAMES && old(transition).Inactive? ==>
                transition == Covering(ShowMemory)
      ensures old(state).Playing? && 0.0 <= dt <= MAX_DT && TimersInRange(old(player)) ==>
                TimersInRange(player)
      ensures !old(state).Playing? ==> player == old(player) && enemies == old(enemies)
    {
      match state {
        case LevelIntro =>
          IntroStep(clock);
        case Playing =>
          PlayStep(dt, input, frictionPow, clock);
        case LevelComplete =>
          CompleteStep(dt);
        case _ =>
      }
    }

    /** The intro screen's frame: after 150 frames, play starts with the level's music. */
    method IntroStep(clock: real)
      requires Valid() && state == LevelIntro
      modifies this`state, this`stateTimer, this`finalePending, audio
      ensures Valid()
      ensures state.Playing? <==> old(stateTimer) > INTRO_FRAMES
      ensures !state.Playing? ==> state == LevelIntro
      ensures state.Playing? && audio.hasContext ==> audio.currentBGM == Some(levels[currentLevel].theme)
    {
      if stateTimer > INTRO_FRAMES {
        SetState(Playing, clock);
        audio.PlayBGM(levels[currentLevel].theme, clock);
      }
    }

    /**
     * The play frame: player, enemies, camera, particles, hearts, then the
     * portal, which completes the level.
     */
    method PlayStep(dt: real, input: Input, frictionPow: real, clock: real)
      requires Valid() && state == Playing
      modifies this`player, this`enemies, this`score, this`popups, this`combo, this`shake, this`camera,
               this`particles, this`collected, this`state, this`stateTimer, this`finalePending, audio
      ensures Valid()
      ensures score >= old(score)
      ensures state == Playing || state == LevelComplete
      ensures state == LevelComplete ==> score >= old(score) + SCORE_LEVEL && audio.currentBGM.None?
      ensures 0.0 <= dt <= MAX_DT && TimersInRange(old(player)) ==> TimersInRange(player)
    {
      UpdatePlayer(dt, input, frictionPow);
      WorldStep(dt, clock);
    }

    /** The rest of the play frame, after the player: enemies, camera, particles, hearts and portal. */
    method WorldStep(dt: real, clock: real)
      requires Valid() && state == Playing
      modifies this`player, this`enemies, this`score, this`popups, this`shake, this`camera,
               this`particles, this`collected, this`state, this`stateTimer, this`finalePending, audio
      ensures Valid()
      ensures score >= old(score)
      ensures state == Playing || state == LevelComplete
      ensures state == LevelComplete ==> score >= old(score) + SCORE_LEVEL && audio.currentBGM.None?
      ensures player.coyoteTimer == old(player).coyoteTimer && player.jumpBufferTimer == old(player).jumpBufferTimer
    {
      MoveWorld(dt);
      var level := levels[currentLevel];
      CheckHearts();
      var found := CheckPortal(level, player);
      if found {
        CompleteLevel(clock);
      }
    }

    /** Enemies patrol, the camera follows the player and the particles run on. */
    method MoveWorld(dt: real)
      requires Valid()
      modifies this`enemies, this`camera, this`particles
      ensures Valid()
      ensures |enemies| == |old(enemies)|
      ensures forall i :: 0 <= i < |enemies| ==> enemies[i] == UpdateEnemy(old(enemies)[i], dt)
      ensures particles == Survivors(old(particles), dt)
      ensures camera == CameraStep(old(camera), CameraTarget(player.x, player.facing),
                                   levels[currentLevel].width as real * TS, dt)
    {
      enemies := UpdateEnemies(enemies, dt);
      var level := levels[currentLevel];
      camera := CameraStep(camera, CameraTarget(player.x, player.facing), level.width as real * TS, dt);
      particles := UpdateParticles(particles, dt);
    }

    /** The level-complete frame: particles run on; after 120 frames, the transition to the memory card. */
    method CompleteStep(dt: real)
      requires state == LevelComplete
      modifies this`particles, this`transition
      ensures old(stateTimer) > COMPLETE_FRAMES && old(transition).Inactive? ==> transition == Covering(ShowMemory)
      ensures !(stateTimer > COMPLETE_FRAMES && old(transition).Inactive?) ==> transition == old(transition)
      ensures particles == Survivors(old(particles), dt)
    {
      particles := UpdateParticles(particles, dt);
      if stateTimer > COMPLETE_FRAMES && transition.Inactive? {
        TransitionTo(ShowMemory);
      }
    }

    /** `updatePlayer` on the game's state, proved equal to `PlayerUpdate`. */
    method UpdatePlayer(dt: real, input: Input, frictionPow: real)
      requires Valid()
      modifies this`player, this`enemies, this`score, this`popups, this`combo, this`shake
      ensures Valid()
      ensures Contact(player, enemies, score, popups, combo, shake) ==
              PlayerUpdate(levels[currentLevel], Contact(old(player), old(enemies), old(score), old(popups),
                                                         old(combo), old(shake)), input, dt, frictionPow)
      ensures score >= old(score)
      ensures 0.0 <= dt <= MAX_DT && TimersInRange(old(player)) ==> TimersInRange(player)
    {
      var before := Contact(player, enemies, score, popups, combo, shake);
      var c := PlayerFrame(levels[currentLevel], before, input, dt, frictionPow);
      StoreContact(c);
    }

    /** Writes the player's frame back to the game's fields. */
    method StoreContact(c: Contact)
      requires Valid() && c.score >= score
      modifies this`player, this`enemies, this`score, this`popups, this`combo, this`shake
      ensures Valid()
      ensures player == c.p && enemies == c.enemies && score == c.score
      ensures popups == c.popups && combo == c.combo && shake == c.shake
    {
      player, enemies, score, popups, combo, shake := c.p, c.enemies, c.score, c.popups, c.combo, c.shake;
    }

    /** `checkHeartCollection` on the game's state: hearts counted on the player, points on the score. */
    method CheckHearts()
      requires Valid()
      modifies this`collected, this`player, this`score, this`popups
      ensures Valid()
      ensures var h := CollectHearts(levels[currentLevel], old(player),
                                     Haul(old(collected), old(player).heartsCollected, old(score), old(popups)));
        collected == h.collected && player.heartsCollected == h.hearts &&
        player == old(player).(heartsCollected := player.heartsCollected) &&
        score == h.score && popups == h.popups
      ensures score >= old(score)
    {
      var level := levels[currentLevel];
      var h0 := Haul(collected, player.heartsCollected, score, popups);
      var h := CheckHeartCollection(level, player, h0);
      CollectHeartsOutcome(level, player, h0);
      collected := h.collected;
      player := player.(heartsCollected := h.hearts);
      score := h.score;
      popups := h.popups;
    }

    /** `completeLevel`: the level bonus, a shake of 5 and the level-complete screen. */
    method CompleteLevel(clock: real)
      requires Valid()
      modifies this`score, this`shake, this`state, this`stateTimer, this`finalePending, audio
      ensures Valid()
      ensures score == old(score) + SCORE_LEVEL && shake == AddShake(old(shake), 5.0)
      ensures state == LevelComplete && stateTimer == 0.0
      ensures audio.timers == map[] && audio.currentBGM.None?
    {
      score := score + SCORE_LEVEL;
      shake := AddShake(shake, 5.0);
      SetState(LevelComplete, clock);
    }
  }
}
