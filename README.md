# Valentine platformer — verified model of the game core

This project models the core of a small browser platformer. The player runs
and jumps through tile-map levels, collects hearts, stomps patrolling enemies
and reaches a portal. Each finished level shows a memory card, and the last
one leads to a finale letter. The model covers:

- the tile map and its post-pass (`levels.js`);
- the frame update of `game.js`: player physics with coyote time and a jump
  buffer, axis-separated tile collision with vertical sub-stepping, enemy
  patrol and stomp/hit resolution, heart pickup, the portal, the camera,
  particles, score pop-ups and screen shake;
- the screen state machine, the fade transition and the buttons;
- the background-music scheduler of `audio.js`;
- the story customisation merge and the HTML escaper of `config.js`;
- the colour interpolation and theme fallback of `sprites.js`.

Modules, one per file:

| module | file | models |
|---|---|---|
| `Wrappers` | wrappers.dfy | `Option` |
| `Levels` | levels.dfy | `pad`, `makeSolidRow`, the heart/width/height post-pass (in place over an array of levels) |
| `Tilemap` | tilemap.dfy | `getTile`, `isSolid` and the physics constants |
| `Collision` | collision.dfy | `resolveCollisionX`, `resolveCollisionY`, vertical sub-stepping |
| `PlayerPhysics` | player.dfy | the phases of `updatePlayer` before and after collision |
| `Enemies` | enemies.dfy | enemy spawning, `updateEnemies`, the stomp/hit loop |
| `Pickups` | pickups.dfy | `checkHeartCollection`, `checkPortal` |
| `Effects` | effects.dfy | particles, score pop-ups, combo pop-up, shake, camera |
| `Audio` | audio.dfy | `noteFreq`, `getMelody`, the `AudioManager` class |
| `StoryConfig` | config.dfy | `esc`, `apply`, `captureDefaults`, `init` |
| `Sprites` | sprites.dfy | `THEMES`, the theme fallback, `lerpColor` |
| `World` | world.dfy | the module-level game state as the class `Game`: `setState`, `transitionTo`, `loadLevel`, buttons, `gameLoop`, `update` |

Modelling choices:

- Pixel and frame quantities are `real`. Tile columns and rows come from
  `Floor`.
- The loops of the source are methods with loop invariants. Each is proved
  equal to a recursive specification function, and the game's properties are
  proved as lemmas about those functions.
- The frame input (arrow keys and jump), the elapsed time and the audio clock
  are parameters. `Math.pow(FRICTION, dt)` and `Math.pow(SHAKE_DECAY, dt)`
  are also parameters (`frictionPow`, `decayPow`).
- Timers (`setTimeout`, `setInterval`) are explicit events. The model has
  methods `LoadingFinished`, `TransitionCovered`, `TransitionUncovered`,
  `FinaleTimeoutFired` and `AudioManager.TimerFired`, and the pending
  interval is a handle in a `timers` map.
- Notes handed to the synthesiser are recorded as `Played` events (voice,
  pitch, start, duration) in the `played` sequence. A pitch is its distance
  in semitones from A4.
- JavaScript values in a configuration are `Undefined`, `Null` or
  `Str(s)`. Truthiness is "a non-empty string".

The model follows the code in these places, including where its behaviour
looks unintended:

- The coyote and jump-buffer timers are decremented whenever they are
  positive (game.js:602, game.js:700-702). One frame can therefore leave
  them below zero, down to `-MAX_DT`. The proved range is
  `(-3, max]`, not `[0, max]`.
- A coyote window of `COYOTE_FRAMES = 7` is armed and decremented in the same
  frame, so a jump is possible during the next 6 frames of 1.0
  (`PlayerPhysics.CoyoteCountdown`).
- A `null` title text in a configuration is not skipped
  (config.js:71-76 only skip `undefined` and `''`). It replaces the title.
- The finale timeout checks that the state is still the finale. That check
  always holds in the model: `setState` cancels the timeout, which gives the
  class invariant `finalePending ==> state == Finale`.
- The vertical sub-step loop has no early exit (game.js:690-693). The frame
  therefore runs every sub-step even after a landing or a head bump
  (`Collision.SubstepLoop`); the corrected loop is kept apart, under Findings.
- The music repeats after the lead voice's length, also in the fallback
  (audio.js:302, 310, 317, 321), even when the bass is longer
  (`Audio.AudioManager.PlayBGM`); the longer-voice period is kept apart,
  under Findings.

## Model

| member | source | states |
|---|---|---|
| Levels.Pad | levels.js:18-21 | a string at least `len` long comes back unchanged; a shorter one keeps its characters as a prefix and is filled with spaces to exactly `len` |
| Levels.MakeSolidRow | levels.js:23-25 | the row has exactly `len` characters, all equal to the given tile |
| Levels.CountHeartsIsMultiplicity | levels.js:233-238 | the heart counter equals the number of `'H'` characters in the whole map |
| Levels.MaxLenIsMaximum | levels.js:240 | the width bounds every row's length and is the length of some row when the map has rows |
| Levels.Measure | levels.js:233-241 | the counting loops return the heart count, the longest row and the row count |
| Levels.Annotated | levels.js:232-242 | annotation keeps the map, theme, start and enemies; total hearts is the `'H'` count; the width is the length of the longest row (every row fits and some row reaches it; 0 without rows); the height is the row count |
| Levels.AnnotateAll | levels.js:232-242 | every level in the array is replaced by its annotated form, in place |
| Tilemap.GetTile | game.js:933-938 | outside the level box, or past the end of a short row, the tile is a space; otherwise it is the map character |
| Tilemap.IsSolid | game.js:940-943 | a cell is solid exactly when it lies inside the level and its character is `#`, `G` or `=` |
| Collision.StepXPushesOut | game.js:953-968 | hitting a solid cell stops horizontal motion and leaves the player flush with one side of it: the left side when moving right, the right side when moving left, the side of smaller overlap when at rest |
| Collision.ResolveXOutcome | game.js:945-972 | with no solid cell in the player's box nothing changes; otherwise the speed is zero and the player is flush with a solid cell of the box |
| Collision.ResolveCollisionX | game.js:945-972 | the nested row/column loop computes the horizontal resolution specified by `ResolveX` |
| Collision.FirstSolidRow | game.js:982-984 | returns the first row from the top with a solid cell in the box's columns, and no earlier row has one |
| Collision.ResolveYOutcome | game.js:974-996 | only the first blocked row matters: falling lands on top of it and is grounded, rising bumps just below it, otherwise nothing moves; grounded exactly when a falling player hit a row |
| Collision.ContactClearsRow | game.js:985-991 | after a landing the box ends in the row above the blocking row; after a bump it starts in the row below |
| Collision.ResolveCollisionY | game.js:974-996 | the nested loop computes the vertical resolution specified by `ResolveY` |
| Collision.SubstepCount | game.js:688 | there is at least one sub-step, and enough that none moves more than 0.8 of a tile |
| Collision.StepLengthBound | game.js:687-689 | each sub-step moves at most 0.8 of a tile either way, and the sub-steps add up to the whole vertical move |
| Collision.LandingStands | game.js:985-988 | a fall that is stopped leaves the player grounded and standing on a solid cell |
| Collision.SubstepsLandFlush | game.js:686-693 | with the corrected sub-stepping, a fall either lands grounded on a solid cell or keeps its speed in the air |
| Collision.SubstepsAsWrittenSinks | game.js:686-693 | the sub-stepping as written can leave a player inside the ground and not grounded (see Findings) |
| Collision.SubstepLoop | game.js:690-693 | the loop, which moves and resolves on every sub-step with no early exit, computes the as-written sub-stepping |
| Collision.MoveVertical | game.js:686-693 | the vertical move equals the as-written sub-stepped resolution, in `SubstepCount` steps of equal length |
| Collision.SubstepsAsWrittenFacts | game.js:686-693 | as written, the move ends with its starting speed or stopped; while the corrected loop would still be moving, the two agree |
| Collision.StoppedKeepsDrifting | game.js:686-693 | as written, after a contact has zeroed the speed each remaining sub-step still moves the player by a full step, unresolved and not grounded |
| Collision.ResolveStopped | game.js:974-996 | a player with zero vertical speed is neither moved nor grounded by the vertical resolution |
| PlayerPhysics.Spawned | game.js:370-389 | the spawn sits at the start tile, at rest, facing right, idle and unsquashed, with safe position equal to the spawn and every timer, combo and heart count zero |
| PlayerPhysics.BufferJump | game.js:593-602 | a fresh press arms the buffer at 8 frames less `dt`; otherwise a positive buffer runs down by `dt`; the held flag is remembered and nothing else changes |
| PlayerPhysics.Steer | game.js:604-618 | steering keeps the speed within the run speed, accelerates towards the pressed direction and faces it; with no direction friction applies and speeds under 0.1 snap to zero; the animation is run or idle on the ground, by vertical direction when steering in the air, kept when coasting in the air; only speed, facing and animation change |
| PlayerPhysics.TryJump | game.js:620-635 | a jump fires when wanted and allowed: upward speed `JUMP_FORCE`, airborne, both timers cleared, jumping animation, stretched squash, and nothing else changes; otherwise the player is unchanged |
| PlayerPhysics.CutJump | game.js:651-654 | releasing early while rising faster than 1 halves the upward speed; otherwise nothing changes |
| PlayerPhysics.Fall | game.js:656-663 | gravity adds `GRAVITY * dt` to the fall speed, and the speed is exactly `MAX_FALL` when that sum is larger; in the air the animation becomes jumping or falling by the sign of the speed; nothing else changes |
| PlayerPhysics.Land | game.js:695-715 | walking off an edge arms the coyote timer; the timer runs down in the air and is zero on the ground; a landing resets the combo and squashes |
| PlayerPhysics.Relax | game.js:733-738 | squash moves back towards 1 without overshooting; a positive invincibility timer runs down by `dt` |
| PlayerPhysics.KeepInLevel | game.js:747-750 | a player left of the level ends at x 0 (at the right limit when the level is narrower than the player), one right of it at the right limit, and a clamped player stops; a player already inside is unchanged; only x and horizontal speed change |
| PlayerPhysics.Respawn | game.js:752-758 | a player below the map returns to the last safe position, at rest, with half the invincibility time, and nothing else changes; any other player is unchanged |
| PlayerPhysics.SaveSafe | game.js:775-779 | a grounded player's position becomes the safe position and nothing else changes; an airborne player is unchanged |
| PlayerPhysics.TimersStayInRange | game.js:598-705 | for `0 <= dt <= 3`, one frame keeps the coyote and buffer timers within `(-3, max]` |
| PlayerPhysics.NoSecondJumpWhileHeld | game.js:594-624 | holding jump without releasing never fires a second jump once the buffer has run out |
| PlayerPhysics.JumpConsumesPress | game.js:620-663 | a fresh press on the ground or within coyote time jumps: both timers cleared, airborne, upward speed `JUMP_FORCE` plus one frame of gravity |
| PlayerPhysics.CoyoteWindow | game.js:620-628 | in the air a jump is possible exactly while the coyote timer is positive |
| PlayerPhysics.CoyoteCountdown | game.js:695-705 | after walking off an edge at frame rate 1, a jump is still possible for exactly the next 6 frames |
| PlayerPhysics.LandingEndsCombo | game.js:703-714 | touching ground after being airborne resets the combo and the coyote timer |
| Enemies.ConfigOf | game.js:97-101 | the speed and size of each enemy type; an unknown type behaves as a broken heart |
| Enemies.DifficultyMul | game.js:368 | the speed multiplier is at least 1 and grows strictly with the level index |
| Enemies.PatrolOr | game.js:414-415 | a missing or zero patrol bound falls back to the spawn column |
| Enemies.Spawn | game.js:403-420 | an enemy spawns alive, facing right, standing on the floor of its tile, with its type's size; thorns stand still and others move at the level's speed; each patrol bound is its configured column, or the spawn column when missing or 0, in pixels |
| Enemies.SpawnEnemies | game.js:401-422 | the spawn loop creates one enemy per definition, in order |
| Enemies.Patrol | game.js:911-920 | a step reaching or passing the left bound stops there facing right, one reaching or passing the right bound stops there facing left, any other step moves by `vx * dt` along the facing; only position and facing change, and the enemy stays between ordered bounds |
| Enemies.UpdateEnemy | game.js:901-926 | a dead enemy's death timer runs down; a thorn only animates; a live walker animates one frame and takes one patrol step, so it stays within its bounds; type, size, bounds and speed never change |
| Enemies.UpdateKeepsFacing | game.js:914-920 | an enemy facing left or right still faces left or right after an update |
| Enemies.PatrolForever | game.js:900-927 | over any number of frames a live walker stays alive and within its patrol bounds |
| Enemies.ThornStaysPut | game.js:907-909 | a thorn never moves and never changes state |
| Enemies.UpdateEnemies | game.js:900-927 | the update loop applies the single-enemy update to every enemy |
| Enemies.StompPoints | game.js:817-818 | a stomp is worth 200 times the combo, capped at a combo of 5 |
| Enemies.ContactStep | game.js:798-892 | a contact affects only its own enemy and never lowers the score |
| Enemies.ContactStepOutcome | game.js:798-892 | a contact either kills its enemy and raises the combo by one, or hits or ignores the player; a dead enemy stays dead and a thorn is unchanged; the player stays put or returns to the safe position |
| Enemies.ContactsOutcome | game.js:797-894 | over the whole loop, each combo step is one kill, the score gain is bounded by the kills at the maximum multiplier, dead enemies stay dead and thorns are unchanged |
| Enemies.ResolveContacts | game.js:797-894 | the loop from the last enemy to the first computes the contact resolution |
| Enemies.InvincibleIgnoresHits | game.js:866-873 | an invincible player is never knocked back and keeps the invincibility time |
| Enemies.HitEffect | game.js:807-873 | a touch that is not a stomp, or any touch of a thorn, on a player who is not invincible puts the player back at the last safe spot at rest, invincible for 90 frames, with everything else in the player kept and the shake raised to at least 6 (`addShake(6)`); enemies (the thorn included), score, combo and pop-ups are unchanged |
| Enemies.StompEffect | game.js:809-847 | landing on the upper half of a non-thorn kills it with a 30-frame death timer and leaves the other enemies alone; the player bounces up at `0.6 * JUMP_FORCE` with the 1.4/0.6 squash and one more combo, nothing else in the player changes; the score grows by the capped multiplier, a "+points" pop-up appears above the enemy's centre for 40 frames, the shake is raised to at least `3 + 1.5 * combo`, and from a combo of 2 a combo pop-up replaces the old one for 70 frames |
| Pickups.ReachInWindow | game.js:1006-1023 | every heart close enough to collect lies inside the scanned window of tiles |
| Pickups.CollectHeartsOutcome | game.js:1002-1063 | a heart ends up collected exactly when it was collected before or is now within reach; each new heart adds one to the count, 100 points and one pop-up |
| Pickups.CheckHeartCollection | game.js:1002-1063 | the scan loop computes the pickup function |
| Pickups.CheckPortal | game.js:1069-1080 | the portal is reached exactly when a portal tile is among the nine cells around the player's centre |
| Effects.SurvivorsFacts | game.js:1128-1140 | after an update only particles with life left remain, each is an advanced input particle, and every advanced particle with life left remains |
| Effects.UpdateParticles | game.js:1128-1140 | the backwards splice loop yields exactly the surviving advanced particles, in order |
| Effects.LivePopupsFacts | game.js:1166-1172 | only pop-ups with time left remain, and none is dropped while all have more than `dt` left |
| Effects.UpdateScorePopups | game.js:1166-1172 | the backwards splice loop yields exactly the pop-ups still alive, in order |
| Effects.TickCombo | game.js:556 | a showing combo pop-up counts down; an expired one is unchanged |
| Effects.AddShake | game.js:1146-1148 | the shake becomes the larger of the current and the new intensity |
| Effects.DecayShake | game.js:1150-1160 | a shake above 0.1 decays without going negative; a weaker one stops |
| Effects.ShakeSettles | game.js:1150-1160 | over any number of frames the shake stays between zero and its start, and a weak shake is zero after one frame |
| Effects.ClampCamera | game.js:1120-1121 | the camera stays between 0 and the last scroll position: a negative position becomes 0, one past the end becomes the last scroll position, one inside is kept |
| Effects.CameraStep | game.js:1115-1122 | the camera never scrolls before the level start or past its end |
| Effects.CameraApproaches | game.js:1115-1122 | with a smoothing step in [0, 1] the camera moves towards the look-ahead target without passing it |
| Effects.CameraReset | game.js:392 | on load the camera is never negative: it is 0 while the player is within the first half screen, and centres a player past half a screen |
| Audio.Semitone | audio.js:47-48 | known note names map to a semitone in 0..11 |
| Audio.NoteFreq | audio.js:46-51 | an unknown note name is silent, and A4 is the reference pitch |
| Audio.NoteFreqRoundTrip | audio.js:46-51 | a pitch decodes back to its note name and octave, and every semitone distance is some note |
| Audio.OctaveDoubles | audio.js:50 | one octave up is 12 semitones up |
| Audio.GetMelody | audio.js:76-280 | the title, memory and finale themes are their own melodies; an unknown theme gets the istanbul melody; every tempo is positive |
| Audio.BeatDuration | audio.js:288 | a beat lasts a positive time |
| Audio.SlotBounds | audio.js:297-307 | a gated note never sounds longer than its slot |
| Audio.SpanIsBeats | audio.js:295-301 | the time one voice takes is its beat sum times the beat length, which the fallback at line 317 uses |
| Audio.ScheduleLength | audio.js:296-298 | every non-rest note of a voice is played |
| Audio.ScheduleFits | audio.js:295-309 | every note a voice plays starts and ends within the voice's span |
| Audio.RepeatPeriod | audio.js:321 | the repeat interval is at least one second and never shorter than the pass |
| Audio.PassSpanCoversBothVoices | audio.js:290-321 | the corrected period covers both the lead and the bass of one pass |
| Audio.IstanbulBassOutlastsLeadSpan | audio.js:197-210 | the istanbul bass's last note starts exactly when the next pass does, the lead length that `playBGM` arms as its period, and is still sounding then (see Findings) |
| Audio.LoopSecondsIsLeadSpan | audio.js:314-321 | the period `playBGM` arms is the lead's length whether the pass sounded or the beat-sum fallback was used |
| Audio.IstanbulLeadBeats | audio.js:199-204 | the istanbul lead lasts 14 beats |
| Audio.IstanbulBassBeats | audio.js:205-210 | the istanbul bass lasts 16 beats, 14 of them before its last note |
| Audio.AudioManager.constructor | audio.js:6-15 | a new manager has no context, is not muted and plays nothing |
| Audio.AudioManager.Init | audio.js:17-37 | initialising twice, or without Web Audio, changes nothing; otherwise a context exists at volume 0.3 |
| Audio.AudioManager.Resume | audio.js:39-43 | a suspended context is asked to resume |
| Audio.AudioManager.ResumeSettled | audio.js:41 | a requested resume, once settled, leaves the context running |
| Audio.AudioManager.PlayVoice | audio.js:295-300 | one voice's loop appends its scheduled notes and returns the end time |
| Audio.AudioManager.PlaySequence | audio.js:290-312 | muted, without context or suspended nothing plays; otherwise the lead and bass schedules are appended and the lead's length is returned |
| Audio.AudioManager.StopBGM | audio.js:326-332 | the repeat interval is cleared and no music is current |
| Audio.AudioManager.StartLoop | audio.js:319-323 | a fresh interval repeats the theme with the repeat period and the theme becomes current |
| Audio.AudioManager.PlayBGM | audio.js:283-324 | without context nothing happens; otherwise the previous loop is replaced by one for this theme repeating every lead length (at least a second), one pass plays unless muted or suspended, and mute and context are unchanged |
| Audio.AudioManager.TimerFired | audio.js:319-321 | a live interval plays one more pass unless muted or suspended |
| Audio.AudioManager.ToggleMute | audio.js:502-511 | mute flips and is returned; the volume follows it; muting stops the music; unmuting leaves everything else unchanged |
| StoryConfig.EscIsCharwise | config.js:193-197 | escaping is a per-character replacement of a truthy value, and empty otherwise |
| StoryConfig.PassesEscapeEachChar | config.js:195-196 | the four chained replace-all passes equal one per-character escape; escaping `&` first never double-escapes |
| StoryConfig.EscIsSafe | config.js:193-197 | escaped text contains no `<`, `>` or `"` |
| StoryConfig.UnescapeEscapeEach | config.js:195-196 | unescaping an escaped string gives it back |
| StoryConfig.EscRoundTrip | config.js:193-197 | escaping any truthy value loses no information |
| StoryConfig.TitleText | config.js:71-76 | an `undefined` or empty title keeps the current text; anything else, `null` included, replaces it |
| StoryConfig.MergeText | config.js:103-109 | `null` or empty restores the original text, `undefined` keeps the current one, a string replaces it |
| StoryConfig.MergePhoto | config.js:112-116 | `null` restores the original photo, a non-empty string replaces it, anything else keeps it |
| StoryConfig.MergeTheme | config.js:119-122 | a non-empty theme replaces the current one; anything else keeps it |
| StoryConfig.TitleBackground | config.js:89-95 | `null` clears the title background, a non-empty string sets it as a `url(...)`, anything else keeps it |
| StoryConfig.MergeLevelIdempotent | config.js:99-135 | applying one chapter's settings twice equals applying them once |
| StoryConfig.MergeLevelsPointwise | config.js:98-109 | chapter k is merged with its own entry when that entry exists; other chapters are unchanged |
| StoryConfig.MergeThemesPointwise | config.js:119-122 | level k's theme changes only through its chapter's entry, and only for existing chapters |
| StoryConfig.MergeBackgroundsPointwise | config.js:125-126 | only a `null` background entry for an existing chapter clears that level's background |
| StoryConfig.ApplyStoryIdempotent | config.js:67-143 | applying a configuration twice equals applying it once |
| StoryConfig.NullsRestoreDefaults | config.js:104-105 | `null` entries restore the original texts of the chapter and the final letter |
| StoryConfig.EmptyConfigChangesNothing | config.js:67-143 | a configuration with every field undefined changes nothing |
| StoryConfig.GameConfig.CaptureDefaults | config.js:24-28 | the defaults become a snapshot of the current story |
| StoryConfig.GameConfig.ApplyTitle | config.js:70-95 | the title texts and background follow their merge rules |
| StoryConfig.GameConfig.ApplyChapters | config.js:97-136 | the chapter loop leaves story, themes and backgrounds merged entry by entry |
| StoryConfig.GameConfig.Apply | config.js:67-165 | a missing configuration changes nothing; otherwise story, level themes, backgrounds and the title background are the merge of old state and configuration |
| StoryConfig.GameConfig.Init | config.js:575-578 | start-up snapshots the defaults, then applies a saved configuration when one exists: story, level themes, level backgrounds and title background follow the merge rules; without one they are all unchanged |
| Sprites.ThemeFor | sprites.js:405 | each of the four themes gets its own palette and any other name gets the istanbul palette |
| Sprites.ThemesAreValid | sprites.js:23-52 | every colour of every palette is a well-formed `#rrggbb` |
| Sprites.HexDigit | sprites.js:779 | a hexadecimal digit has a value in 0..15 |
| Sprites.HexRun | sprites.js:779 | the run of leading hex digits is maximal |
| Sprites.ParseHex | sprites.js:779-780 | hex parsing fails exactly on an empty string or a non-digit first character |
| Sprites.Slice | sprites.js:779-780 | `slice` within bounds is the substring |
| Sprites.TwoDigits | sprites.js:779-780 | two hex digits parse to a channel value in 0..255 |
| Sprites.ValidChannels | sprites.js:779-780 | a well-formed colour has three channels in 0..255 |
| Sprites.HexColorRoundTrip | sprites.js:779-780 | formatting three channels as `#rrggbb` and parsing them back gives the same channels |
| Sprites.Round | sprites.js:781 | rounding lands within half a unit, ties rounding up |
| Sprites.NatToString | sprites.js:782 | a number prints as a non-empty string of decimal digits |
| Sprites.NatToStringRoundTrip | sprites.js:782 | printed numbers read back to themselves |
| Sprites.LerpChannelEnds | sprites.js:781 | interpolation at 0 gives the first channel and at 1 the second |
| Sprites.LerpChannelBetween | sprites.js:781 | for t in [0, 1] an interpolated channel lies between its ends |
| Sprites.LerpColorInRange | sprites.js:778-783 | blending two well-formed colours gives three channels in 0..255, equal to the first colour at 0 and the second at 1 |
| Sprites.NaNChannelShows | sprites.js:779-782 | a colour whose red digits do not parse prints as `rgb(NaN,...` |
| Sprites.SkyGradientInRange | sprites.js:405-411 | every sky band of every theme is a valid `rgb(r,g,b)` with channels in 0..255 |
| World.FrameDelta | game.js:536-537 | a frame's step never exceeds 3 frames, is never negative for a later timestamp, and is the elapsed time in 60 Hz frames below the cap |
| World.PlayerUpdateOutcome | game.js:588-894 | one player update keeps the enemy count, never lowers the score or raises the live enemy count, leaves thorns and dead enemies alone, never weakens the shake and keeps the timers in range |
| World.Slide | game.js:665-668 | horizontal movement equals the horizontal resolution |
| World.CollidePlayer | game.js:665-693 | the move-and-collide phase equals the horizontal resolution followed by the as-written vertical sub-stepping |
| World.PlayerFrame | game.js:588-894 | the player's frame, with the as-written sub-stepping, computes the player update; it never lowers the score or the shake, keeps the enemy count, never revives an enemy and keeps the timers in range |
| World.Game.constructor | game.js:59-120 | the game starts loading, at level 0, with score 0, no transition, no combo label and audio armed |
| World.Game.SetState | game.js:215-264 | the new screen starts with a zero timer; the intro, level-complete and finale screens stop the music, the memory card plays its theme, and a finale timeout is pending exactly on the finale |
| World.Game.ScreenAudio | game.js:246-258 | the music each screen starts or stops on entry |
| World.Game.LoadingFinished | game.js:140-147 | the loading screen gives way to the title without touching audio |
| World.Game.FirstInteraction | game.js:155-164 | the first interaction starts audio and the title theme if nothing plays yet, and only once |
| World.Game.KeyPressed | game.js:435-441 | a key press asks a suspended audio context to resume |
| World.Game.LoadLevel | game.js:364-428 | the level's player, camera and enemies are spawned and hearts, particles and pop-ups are cleared |
| World.Game.ResetRun | game.js:370-398 | the player respawns at the start tile, the camera resets and the per-level collections are cleared |
| World.Game.TransitionTo | game.js:267-272 | a transition starts only when none is running |
| World.Game.TransitionCovered | game.js:272-278 | at full cover the pending callback runs: start loads level 0 with score 0 and music stopped; continue loads the next level, or shows the finale after the last one, music stopped; replay plays the title theme and shows the title; a memory card plays the memory theme; replay and memory card keep level, player, enemies and collections |
| World.Game.StartRun | game.js:483-487 | starting resets the score, loads level 0 (player, camera, cleared hearts, particles and pop-ups, spawned enemies) and enters its intro with the music stopped |
| World.Game.NextLevel | game.js:492-499 | continuing loads the next level as `loadLevel` does and enters its intro, or shows the finale after the last level with the level state kept; either way the music stops |
| World.Game.TransitionUncovered | game.js:274-277 | an uncovering transition ends |
| World.Game.StartPressed | game.js:479-488 | the start button stops the music and begins the start transition |
| World.Game.ContinuePressed | game.js:491-500 | the memory card's button begins the continue transition |
| World.Game.ReplayPressed | game.js:503-510 | the replay button cancels the finale timeout, stops the music and begins the replay transition |
| World.Game.MutePressed | game.js:513-528 | muting silences the music; unmuting resumes the current screen's theme |
| World.Game.FinaleTimeoutFired | game.js:354-357 | the finale theme starts two seconds into the finale, and only while on it |
| World.Game.Frame | game.js:535-546 | each frame advances the clock and counter, never lowers the score, and changes screen only from intro to play or from play to complete |
| World.Game.Update | game.js:552-582 | an update never lowers the score; the intro ends after 150 frames with the level's theme; completing a level scores at least 1000 and stops the music; the complete screen turns to the memory card after 120 frames |
| World.Game.Tick | game.js:554-556 | shake, pop-ups and combo pop-up advance every frame, whatever the screen |
| World.Game.ScreenStep | game.js:558-581 | the screen-specific step, with the same guarantees as the update |
| World.Game.IntroStep | game.js:559-564 | the intro turns into play exactly when its timer passes 150, starting the level's theme |
| World.Game.PlayStep | game.js:566-573 | a playing frame stays in play or completes the level, never lowering the score |
| World.Game.WorldStep | game.js:568-573 | the world step after the player's update keeps the player's timers, never lowers the score, and completing the level scores at least 1000 and stops the music |
| World.Game.MoveWorld | game.js:568-570 | enemies, camera and particles each advance by their own update |
| World.Game.CompleteStep | game.js:575-580 | on the complete screen particles advance and after 120 frames the memory-card transition starts |
| World.Game.UpdatePlayer | game.js:588-894 | the player's frame stores the player update's result (as-written sub-stepping included) and keeps the timers in range |
| World.Game.CheckHearts | game.js:1002-1063 | collected hearts, heart count, score and pop-ups follow the pickup function and nothing else of the player changes |
| World.Game.CompleteLevel | game.js:1083-1109 | completing a level adds 1000 points, shakes by at least 5, enters the complete screen and stops the music |

## Left out

- Sound effects (`playSFX`) and the synthesiser (`playNote`): played notes are recorded as events, not rendered.
- Particle spawning (jump dust, wall dust, landing dust, run trail, death and hit bursts, heart sparkles, the 60 celebration particles): their contents are random.
- Player and enemy animation frames and timers, the teardrop bounce, and the random shake offsets: they only affect drawing.
- Rendering, the DOM, the HUD, the hearts rain, `resizeCanvas` and touch detection: these are display code.
- Keyboard and touch input mapping: the frame's input is a parameter.
- `Math.pow` for friction and shake decay, and note frequencies in hertz: the former are parameters; a pitch is its semitone distance from A4.
- Floating-point rounding: all quantities are real numbers.
- `parseInt` leading whitespace, signs and `0x` prefixes: colour strings here never contain them.
- The title background's size and position, the asynchronous loading of custom background and character images, and the character image: they are browser side effects.
- Saving and loading the configuration (`localStorage`, file download), the settings panel, image compression, reset and toasts: this is user-interface code.
- Timer delays (1800 ms, 600 ms, 450 ms, 120 ms, 2000 ms): the timers' callbacks are explicit events whose order the caller chooses.
- World.Game.Frame: states the clock, counter, score and screen changes, not the whole new state, which `Update`'s parts state field by field.
- World.Game.Update: states score, screen and music guarantees and the player timers' range, not the full new state, which its leaf methods `Tick`, `UpdatePlayer`, `MoveWorld`, `CheckHearts`, `CompleteLevel`, `IntroStep` and `CompleteStep` state.
- Levels.Annotated: a level with no rows gets width 0, where `Math.max()` of nothing gives `-Infinity` (levels.js:240); every shipped level has rows.
- Audio.GetMelody, Sprites.ThemeFor: a theme that is not a table key falls back to istanbul; the model does not capture names of inherited object properties (`constructor`, `toString`, `__proto__`), for which the lookups at audio.js:279 and sprites.js:370, 392, 405 find a truthy value and the caller then throws. The settings panel only offers the four palette names.
- Effects.CameraStep: states only the scroll bounds; the approach to the target is `Effects.CameraApproaches`.

## Findings

| source | as written | input that shows it | evidently intended | confidence | as-written member | corrected member |
|---|---|---|---|---|---|---|
| game.js:686-693 | the vertical sub-steps keep adding the per-step distance after a landing has zeroed the speed, and the resolver ignores a player with zero speed | level rows `" "`, `" "`, `"#"`, player at x 0, y 10, falling at 7 with `dt` 3: two sub-steps of 10.5; the first lands at y 17, the second moves to y 27.5, inside the ground and not grounded | stop sub-stepping once a sub-step hits a tile, so the player stays on the ground | not executed | Collision.SubstepsAsWrittenSinks | Collision.SubstepsLandFlush |
| audio.js:301-321 | the music repeats after the lead's length only, although the bass can be longer | the istanbul theme: lead 14 beats, bass 16 beats; the bass's last note starts when the next pass starts, so the two passes overlap | repeat after the longer of the two voices | not executed | Audio.IstanbulBassOutlastsLeadSpan | Audio.PassSpanCoversBothVoices |
