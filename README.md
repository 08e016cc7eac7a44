# Gravity of You — the discrete core, in Dafny

The page is a canvas animation. Two glowing actors chase each other across a
starfield. Each time they collide, one line of a fixed love letter is
revealed. After the last line, the next collision triggers a finale. A small
request filter (middleware.js) turns away every visitor whose detected country
is some country other than Indonesia; a missing or empty country passes.

This project models the parts of that program that are integer and flag logic
and exact list updates. It proves what the program promises about them.

- **Progression** (`Engine.startGame`, the logic block of `Engine.update`,
  `Engine.triggerFinale`). `gameStep` goes 0 (idle), then 1 (chasing), then
  2 (finale). `messageIndex` counts the revealed messages.
  `lastCollisionTime` enforces a 1500 ms cooldown. The distance test and
  `Date.now()` are inputs of each frame. The model has a pure state machine
  (`Progression`) and the `Engine` class, whose methods are proved against it.
  Lemmas over whole runs of clicks and frames prove these facts:
  - the step stays in {0, 1, 2}, the message index stays within the list,
    step 0 means nothing was revealed and step 2 means everything was;
  - `gameStep` and `messageIndex` never decrease;
  - two accepted collisions `i < j` are more than `(j - i) * 1500` ms apart;
  - the k-th accepted collision reveals message k;
  - the finale fires exactly on the collision after the last message, and at
    most once.
- **Pruning.** Particles, texts and each actor's trail are walked from the
  last index down to 0. Each element is updated and then spliced out if its
  life is at most 0. `Pruning.UpdateAndPrune` runs that loop on a sequence.
  It is proved to return exactly the updated elements whose life is
  positive, in their original order.
- **Entity life rules.** These are `TrailParticle`, `Particle` and
  `FloatingText` `update`, with lifetimes proved from them:
  - a trail particle lives 24 updates;
  - a rising message lives 249 updates;
  - a burst particle dies within 34 to 100 updates;
  - a finale message keeps life 1000 forever.
- **Finale effects.** An explosion adds 30 particles. The finale adds 30 more
  and one floating text per message. It also sets both actor sizes to 0.
- **Star count.** `max(100, floor(width * height / 3000))`.
- **`AudioController` flags.** The flags are `initialized`, `isMuted`,
  whether the drone oscillator exists, and the master gain level. The audio
  graph itself is abstracted away. Whether the audio context can be built
  and whether it is suspended are inputs.
  - The code has a quirk. `toggleMute` clears `isMuted` before it calls
    `startDrone`, but `startDrone` only goes on while `isMuted` is true.
    `Audio.DroneNeverStarts` proves that the drone never starts while the
    context can always be built.
  - `Audio.DroneCanStartAfterFailedInit` shows how it can start after all:
    a failed first build, then a successful one on a toggle that mutes.
  - The comment at script.js:83 (`// Wait for unmute`) suggests the drone
    was meant to start on unmuting. The model follows the code.
- **Geo gate** (middleware.js).
  - A request with no country, with the country `"ID"`, or with the empty
    string (which is falsy) passes through.
  - Any other country gets the same fixed 403 `text/html` page.

Files: `wrappers.dfy` (Option), `config.dfy` (the constants),
`geo_gate.dfy`, `star_field.dfy`, `entities.dfy`, `pruning.dfy`,
`audio.dfy`, `progression.dfy`, `game.dfy` (the `Player`, `Partner` and
`Engine` classes).

## Model

| member | source | states |
|---|---|---|
| `GeoGate.Country` | middleware.js:6 | The country is present exactly when the request has geo data with a country, and it is that country |
| `GeoGate.Middleware` | middleware.js:5-25 | The request passes (no response) exactly when the country is undefined, empty, or "ID"; otherwise the response is the fixed 403 denial page |
| `GeoGate.MissingCountryPasses` | middleware.js:6-9 | Without `geo`, or with a `geo` record that has no country, the request passes through |
| `GeoGate.AllowedCountriesPass` | middleware.js:9 | Country "ID" passes; the empty string is falsy and passes too |
| `GeoGate.OtherCountriesDenied` | middleware.js:9-23 | Any other non-empty country gets status 403 with content-type text/html |
| `GeoGate.DenialIndependentOfCountry` | middleware.js:10-23 | Every denial is the same response, whatever country caused it |
| `GeoGate.SampleRequests` | middleware.js:5-25 | "ID" passes, "US" is denied, a request without geo data passes |
| `StarField.StarCount` | script.js:572-584 | The number of stars is max(100, floor(area / 3000)): at least 100, at most 100 unless the area holds that many stars, and always more than area / 3000 - 1 |
| `StarField.StarCountMonotone` | script.js:580 | A larger viewport never gets fewer stars |
| `StarField.SampleViewports` | script.js:580 | 1920x1080 gives 691 stars; 375x667 gives the minimum of 100 |
| `Entities.NewTrail` | script.js:291-297 | A trail particle is born with life 1 in its actor's colour |
| `Entities.UpdateTrail` | script.js:298-301 | An update keeps a trail particle's colour and strictly lowers its life |
| `Entities.ParticleDecay` | script.js:510 | For a uniform draw in [0, 1) the decay lies in [0.01, 0.03) |
| `Entities.NewParticle` | script.js:504-513 | A burst particle is born with life 1 in the burst's colour, with a decay in [0.01, 0.03) for any uniform draw |
| `Entities.UpdateParticle` | script.js:515-519 | An update keeps a particle's colour and decay, and a positive decay strictly lowers its life |
| `Entities.NewText` | script.js:448-455 | A revealed message starts rising (not floating), with life 1 and scale 0 |
| `Entities.FinaleText` | script.js:684-690 | A finale message is floating, with life 1000 and scale 0 |
| `Entities.UpdateText` | script.js:457-473 | A text keeps its text and mode; only a rising text loses 0.004 life; the scale grows by at most 0.05 and never shrinks |
| `Entities.TrailLifeAfter` | script.js:293-300 | After k updates a trail particle's life is its initial life minus 0.04 k |
| `Entities.TrailLifetime` | script.js:290-300 | A new trail particle has positive life after k updates exactly when k < 25 |
| `Entities.TextLifeAfter` | script.js:457-473 | After k updates a rising text has lost 0.004 k life and a floating one none |
| `Entities.TransientTextLifetime` | script.js:448-473 | A message revealed by a collision has positive life after k updates exactly when k < 250 |
| `Entities.FinaleTextPersists` | script.js:458-466 | A finale message keeps life 1000 through any number of updates |
| `Entities.ParticleLifeBounds` | script.js:509-519 | With a decay in [0.01, 0.03), k updates remove at least 0.01 k and (for k > 0) less than 0.03 k of life |
| `Entities.ParticleLifetime` | script.js:503-519 | A burst particle is still alive after 33 updates and dead after 100, whatever its random decay |
| `Pruning.UpdateAndPrune` | script.js:766-769 | The reverse-index update-and-splice loop returns exactly the updated elements whose life is positive, in their original order |
| `Pruning.SurvivorsCons` | script.js:766-769 | One pass is the head's fate (kept updated, or dropped) followed by the pass over the rest |
| `Pruning.AliveMembership` | script.js:768 | An element is kept exactly when it was present and its life is positive |
| `Pruning.AliveAppend` | script.js:766-769 | Pruning preserves order: it distributes over concatenation |
| `Pruning.AliveAllLiving` | script.js:768 | When every element is alive, nothing is removed |
| `Pruning.AliveAllDead` | script.js:768 | When every element is dead, the list is emptied |
| `Pruning.SurvivorsAreUpdatedAndAlive` | script.js:766-769 | Every element after a pass is the update of some original element and has positive life, and every such update is kept |
| `Pruning.SurvivorsAppend` | script.js:766-774 | A pass over old elements followed by newly spawned ones is the two passes joined |
| `Audio.AfterInit` | script.js:43-64 | `init` does nothing once initialized; otherwise it initializes (master level 0.4) exactly when the context can be built; the mute and drone flags are untouched |
| `Audio.AfterStartDrone` | script.js:82-108 | The drone is created exactly when the controller is initialized and muted; nothing else changes |
| `Audio.AfterToggleMute` | script.js:154-171 | `toggleMute` always flips `isMuted`; it initializes when possible; the drone starts only when toggling from unmuted while uninitialized with a buildable context; when initialized, the master level becomes 0 when muting and 0.4 when unmuting |
| `Audio.InitIdempotent` | script.js:44 | Once `init` has succeeded, calling it again changes nothing |
| `Audio.ToggleTwiceRestoresMute` | script.js:155 | Two toggles restore the mute flag |
| `Audio.DroneNeverStarts` | script.js:82-171 | From the constructor's state, over any sequence of init, toggle, chime and finale calls in which the context can be built, the drone never starts |
| `Audio.DroneCanStartAfterFailedInit` | script.js:154-158 | If the first toggle cannot build the context and the second can, the drone starts while muted |
| `Audio.AudioController.constructor` | script.js:35-41 | A new controller is uninitialized, muted and has no drone |
| `Audio.AudioController.Init` | script.js:43-64 | The new flags are `AfterInit` of the old ones |
| `Audio.AudioController.StartDrone` | script.js:82-108 | The new flags are `AfterStartDrone` of the old ones |
| `Audio.AudioController.PlayChime` | script.js:110-131 | A chime is scheduled exactly when initialized, not suspended and unmuted |
| `Audio.AudioController.PlayFinale` | script.js:133-152 | The chord is scheduled exactly when initialized and unmuted |
| `Audio.AudioController.ToggleMute` | script.js:154-171 | The new flags are `AfterToggleMute` of the old ones |
| `Progression.Collide` | script.js:740-759 | A collision is accepted exactly when chasing, near and more than 1500 ms after the last accepted one; an accepted one records its time and reveals the next message while any remain, otherwise it sets step 2; a rejected one changes nothing |
| `Progression.Start` | script.js:644-646 | From idle, start moves to step 1; from any later step it changes nothing; it never touches the message index or the collision time |
| `Progression.Accepts` | script.js:740-745 | A collision is accepted only while chasing, only when near, and only more than 1500 ms after the last accepted one |
| `Progression.StartOnlyFromIdle` | script.js:644-646 | `startGame` changes the state exactly when idle, moves it to step 1, and a second call is a no-op |
| `Progression.RunStaysValid` | script.js:740-759 | Over any run of clicks and frames, the step stays in {0,1,2}, the message index stays within the list, and step 2 means all messages were revealed |
| `Progression.RunNeverGoesBack` | script.js:740-759 | Over any run, `gameStep` and `messageIndex` never decrease |
| `Progression.FinaleIsTerminal` | script.js:740 | From step 2 no collision is accepted and the state never changes |
| `Progression.CooldownSinceStart` | script.js:744-746 | The k-th accepted collision comes more than (k+1)·1500 ms after the last one recorded before the run |
| `Progression.RunRecordsLastAcceptance` | script.js:745-746 | After a run, `lastCollisionTime` is the time of its last accepted collision, or unchanged when none was accepted |
| `Progression.CooldownRespected` | script.js:744-746 | Any two accepted collisions i < j are more than (j−i)·1500 ms apart |
| `Progression.AcceptanceSchedule` | script.js:754-759 | The k-th accepted collision reveals message `messageIndex + k` while messages remain, is the finale exactly when none remain, and no more than the remaining messages plus one are accepted |
| `Progression.FinaleAtMostOnce` | script.js:754-759 | No run contains two finale collisions |
| `Progression.FinaleAfterAllMessages` | script.js:754-759 | From a fresh engine, accepted collision k reveals message k, and the finale is exactly the collision after the sixth |
| `Game.FloatingTextsNeverPruned` | script.js:458-466 | Floating texts with positive life all survive a pass with unchanged life |
| `Game.FinaleFrameKeepsAllMessages` | script.js:684-692 | After the finale frame the texts are the earlier survivors followed by one floating text per message, in order, each with life 1000 |
| `Game.RevealedTextSurvivesItsFrame` | script.js:755 | A revealed message is still present, last, after the frame that revealed it |
| `Game.ExplosionSurvivesItsFrame` | script.js:668-672 | An explosion's particles have life 1, its colour and a decay in [0.01, 0.03), and all survive their first frame |
| `Game.Player.constructor` | script.js:313-320 | A new player has size 6, is inactive and has no trail |
| `Game.Player.Update` | script.js:322-344 | The trail becomes the survivors of the old trail plus a new particle when moving fast; size and activity are unchanged |
| `Game.Partner.constructor` | script.js:379-388 | A new partner has size 8, speed cap 5, is inactive and has no trail |
| `Game.Partner.Update` | script.js:390-420 | As for the player, with the partner's colour |
| `Game.Engine.constructor` | script.js:534-593 | The engine starts idle with `StarCount` stars, no particles or texts, inactive actors and a fresh audio controller |
| `Game.Engine.StartGame` | script.js:644-662 | The progress becomes `Start` of the old one; from idle both actors become active and the audio is initialized; otherwise nothing changes |
| `Game.Engine.OnClick` | script.js:623-625 | A click starts the game only when idle |
| `Game.Engine.OnMusicButton` | script.js:628-635 | The audio flags are toggled, and the button shows playing exactly when the controller was muted before |
| `Game.Engine.SpawnText` | script.js:664-666 | Exactly one rising text with the given message is appended |
| `Game.Engine.SpawnExplosion` | script.js:668-672 | Exactly 30 particles of the given colour are appended, one per random draw |
| `Game.Engine.TriggerFinale` | script.js:674-698 | Step 2; 30 white particles; one floating text per message with life 1000, in order; both actors have size 0; the chord is scheduled exactly when initialized and unmuted |
| `Game.Engine.Update` | script.js:700-775 | The progress follows `Collide`; the particles and texts are the survivors of the old ones plus what the collision spawned; the trails are updated and pruned; sizes drop to 0 only in the finale; a chime and the chord are scheduled as the guards allow |

## Left out

- Drawing: every `draw` method, gradients, shadows, the connection line between the actors, and the CSS tilt of the finale card. They are rendering only.
- The Web Audio graph: oscillators, gains, ramps, the convolver, the random reverb impulse, the chime's random note, and `ctx.resume()`. These are foreign API calls. Only the guards and the master gain level are kept.
- Floating-point physics: `Vector2`, actor steering and speed limits, the partner's velocity reversal after a collision, the `isAttracted` mode, star parallax, flee, twinkle and wrap, and nebula drift. Their effect on the logic enters as the inputs `near` (distance below 40) and `moving` (speed above 0.5).
- Random positions, angles and sizes of stars, particles and texts. `Math.random()` draws appear only where they set a particle's decay.
- Arithmetic: `life`, `decay` and `scale` are exact reals, not IEEE doubles. The lifetimes of trail particles (25 updates) and rising texts (250) are the same in doubles. For burst particles, rounding could move the last frame.
- DOM and browser plumbing: event listeners, `requestAnimationFrame`, the 1000 ms timeout that shows the finale card, the hint text, `resize`, and `location.reload`. The `bgMusic.play()` promise is left out too. It clears `isMuted` asynchronously after `startGame`, so in the model only the music button unmutes.
- `config.matcher` is kept as the constant `"/:path*"`. The path-pattern matching it selects is not modelled.
- Dead code: the unused `starCount` in `init`, the commented-out plans, and `CONFIG.starCount`.
