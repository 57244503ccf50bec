# Hackathon website: the per-frame core, in Dafny

The repository is a React / three.js site for a virtual hackathon. The user
flies a spacecraft through a solar system, and each route of the site moves
the camera and shows its own panel. This project models the parts of that site
that compute things on every frame or event, and proves properties of them:

- **Spacecraft controls**: the seven key flags that key-down and key-up
  events set and clear, and the pointer in normalised device coordinates.
  Each frame, `updateMovement` makes one integration step: a key direction,
  normalised, aimed by the mouse, scaled by `2·delta`, added to the velocity,
  clamped to the speed cap (1, or 2 while boosting) and damped by 0.98. Pitch
  and roll then ease toward targets taken from the velocity and are damped by
  0.95, while yaw follows the pointer.
- **Spacecraft**: each frame, the ship moves by the new velocity plus a hover
  of at most 0.002, gets the new tilt, and takes an engine glow of 2, 1 or
  0.5. While the ship moves or boosts, it pushes a point onto its trail.
- **Spacecraft trail**: three parallel lists (points, colours, stored alphas)
  at most `maxPoints` long, newest first. They are copied into fixed-size
  geometry buffers on every push. Each stored alpha fades by x0.97 per push
  and by x0.99 per rendered frame.
- **Cursor effects and particle trails**: the pointer position, its change
  since the last move, a fixed-length trail of recent positions, and a field
  of at most 1000 particles. Each frame the field spawns a burst at the
  cursor, steps every particle and packs the survivors into the buffers.
- **Planet textures**: `adjustColor`, which parses the three hex channels,
  adds an amount, clamps to [0, 255] and formats them again, plus the table
  from planet name to colour.
- **Sector content**: the launch countdown, which splits milliseconds into
  days, hours, minutes and seconds using JavaScript's `Math.floor` and its
  truncating `%`, and the heading for each route.
- **Experience**: the 1.5-second ease-in-out camera flight to a route's
  camera position.
- **HUD and navigation controls**: the eight-sector table, the highlighted
  sector, and the Escape rule that leaves the explore view.

Object state that the source updates in place becomes Dafny classes: the hook
refs, the trail and particle field with their `Float32Array` buffers, the
camera, and the router. The pure computations become functions with lemmas
about them. Every stateful method is specified by the functions it
implements, so the properties proved about those functions carry over.

Three inputs reach the per-frame code unclamped, and the model keeps them so:

- The code does not clamp the frame time `delta`. It uses `delta` as given,
  and so does the model.
- The code does not clamp the 1.5·delta tilt-smoothing fraction to [0, 1].
  Here `SpacecraftControls.TiltStaysBounded` proves that the tilt stays in
  [-1, 1] *when* 1.5·delta ≤ 1, and it promises nothing when that fails.
- The code does not filter NaN or infinite pointer input. The model works on
  real numbers, which have no NaN.

## Model

| member | source | states |
|---|---|---|
| SpacecraftControls.KeyOf | src/hooks/useSpacecraftControls.ts:32-59 | the switch of both key handlers: the flag each event code drives, or none; `KeyTable` proves it is the per-flag code lists read the other way |
| SpacecraftControls.Press | src/hooks/useSpacecraftControls.ts:31-61 | a key-down sets exactly the flag its code drives and keeps the other six; an unknown code changes nothing |
| SpacecraftControls.Release | src/hooks/useSpacecraftControls.ts:63-93 | a key-up clears exactly the flag its code drives and keeps the other six; an unknown code changes nothing |
| SpacecraftControls.KeyTable | src/hooks/useSpacecraftControls.ts:32-59 | a code drives a flag if and only if it is one of that flag's listed codes (W/ArrowUp, S/ArrowDown, A/ArrowLeft, D/ArrowRight, Space, Control, Shift) |
| SpacecraftControls.PressThenRelease | src/hooks/useSpacecraftControls.ts:31-93 | pressing then releasing a key clears its flag and keeps the others; if the flag was clear before, nothing changed |
| SpacecraftControls.DirectionComponents | src/hooks/useSpacecraftControls.ts:121-127 | each axis of the key direction is -1, 0 or 1, and it is 0 exactly when both or neither of its two keys are held; forward alone gives z = -1 |
| SpacecraftControls.Direction | src/hooks/useSpacecraftControls.ts:121-127 | the key direction: right minus left, up minus down, backward minus forward; its axis values are stated by `DirectionComponents` |
| SpacecraftControls.Normalize | src/hooks/useSpacecraftControls.ts:129-132 | three.js `normalize`: divide by the length, or leave a zero-length vector alone; `NormalizeUnit` states the result |
| SpacecraftControls.NormalizeUnit | src/hooks/useSpacecraftControls.ts:129-132 | a non-zero direction normalises to unit length; the zero vector stays zero |
| SpacecraftControls.AimZero | src/hooks/useSpacecraftControls.ts:134-144 | the mouse-aim rotation maps the zero vector to zero |
| SpacecraftControls.Thrust | src/hooks/useSpacecraftControls.ts:129-149 | the move vector: the normalised direction, turned by the mouse aim, scaled by 2·delta; its length and zero cases are stated by `ThrustLength`, `SteeredThrust`, `NoDirectionNoThrust` and `MovingIffSteered` |
| SpacecraftControls.ThrustLength | src/hooks/useSpacecraftControls.ts:129-149 | with a direction held, the move vector has squared length (2·delta)² |
| SpacecraftControls.SteeredThrust | src/hooks/useSpacecraftControls.ts:143-149 | with a direction held, the move vector is non-zero exactly when delta is not 0 |
| SpacecraftControls.NoDirectionNoThrust | src/hooks/useSpacecraftControls.ts:121-149 | with no net key direction the move vector is zero |
| SpacecraftControls.MovingIffSteered | src/hooks/useSpacecraftControls.ts:178 | `isMoving` (the length of the scaled move vector being > 0) holds if and only if a net direction is held and delta is not 0 |
| SpacecraftControls.Clamp | src/hooks/useSpacecraftControls.ts:151-154 | the speed limit: a velocity longer than the cap is rescaled to the cap, any other is kept; `ClampBound` and `ClampNoLonger` state the result |
| SpacecraftControls.NextVelocity | src/hooks/useSpacecraftControls.ts:146-157 | the new velocity: old plus move, clamped, times 0.98; `SpeedBound`, `RestStaysAtRest` and `IdleSlowsDown` state what it does |
| SpacecraftControls.ClampBound | src/hooks/useSpacecraftControls.ts:151-154 | after the speed limit the squared speed is at most the squared cap |
| SpacecraftControls.SpeedBound | src/hooks/useSpacecraftControls.ts:147-157 | the new velocity never exceeds 0.98 times the speed cap (1, or 2 with boost), from any old velocity and any delta |
| SpacecraftControls.RestStaysAtRest | src/hooks/useSpacecraftControls.ts:121-157 | a ship at rest with no net key direction stays at rest |
| SpacecraftControls.IdleSlowsDown | src/hooks/useSpacecraftControls.ts:146-157 | with no net key direction a moving ship strictly loses speed on every step, for any pointer and any delta |
| SpacecraftControls.ClampNoLonger | src/hooks/useSpacecraftControls.ts:151-154 | the speed limit never makes a velocity longer |
| SpacecraftControls.Approach | src/hooks/useSpacecraftControls.ts:163-164 | one tilt-smoothing step `a + (target - a)·1.5·delta`, read as a move toward the target by the fraction 1.5·delta; `ApproachBetween` states where it lands |
| SpacecraftControls.ApproachBetween | src/hooks/useSpacecraftControls.ts:163-164 | for a fraction in [0, 1], one smoothing step lands between the angle and its target |
| SpacecraftControls.NextRotation | src/hooks/useSpacecraftControls.ts:159-169 | the new tilt: pitch and roll smoothed toward 0.5·v.z and -0.5·v.x, then times 0.95; yaw -pointer.x·π/4; `TiltStaysBounded` states its bound |
| SpacecraftControls.TiltStaysBounded | src/hooks/useSpacecraftControls.ts:159-169 | while 1.5·delta stays in [0, 1], pitch and roll that start in [-1, 1] stay in [-1, 1] |
| SpacecraftControls.Controller.constructor | src/hooks/useSpacecraftControls.ts:15-27 | all flags released; pointer, velocity and rotation zero |
| SpacecraftControls.Controller.KeyDown | src/hooks/useSpacecraftControls.ts:31-61 | the new flags are `Press` of the old ones |
| SpacecraftControls.Controller.KeyUp | src/hooks/useSpacecraftControls.ts:63-93 | the new flags are `Release` of the old ones |
| SpacecraftControls.Controller.MouseMove | src/hooks/useSpacecraftControls.ts:95-99 | the pointer becomes the normalised device coordinates of the event; an event inside the window gives coordinates in [-1, 1] |
| SpacecraftControls.Controller.KeyDirection | src/hooks/useSpacecraftControls.ts:121-127 | the six conditional updates sum to the key direction |
| SpacecraftControls.Controller.Steer | src/hooks/useSpacecraftControls.ts:121-149 | the move vector is the key direction, normalised when non-zero, aimed by the pointer and scaled by 2·delta |
| SpacecraftControls.Controller.Accelerate | src/hooks/useSpacecraftControls.ts:147-157 | the velocity becomes the old one plus the move, clamped to the cap, times 0.98 |
| SpacecraftControls.Controller.Tilt | src/hooks/useSpacecraftControls.ts:159-169 | pitch and roll ease toward 0.5·v.z and -0.5·v.x and are damped by 0.95; yaw is -pointer.x·π/4 |
| SpacecraftControls.Controller.UpdateMovement | src/hooks/useSpacecraftControls.ts:112-181 | the new velocity and rotation are the integration step of the old ones; the returned record copies them; `isMoving` iff a direction is held and delta ≠ 0; the speed respects 0.98 of the cap |
| Screen.NdcX | src/hooks/useSpacecraftControls.ts:97 | the left edge maps to -1 and the right edge to 1; points inside the window map into [-1, 1] |
| Screen.NdcY | src/hooks/useSpacecraftControls.ts:98 | the top edge maps to 1 and the bottom edge to -1; points inside the window map into [-1, 1] |
| Screen.NdcRoundTrip | src/hooks/useSpacecraftControls.ts:97-98 | the pixel position can be recovered from the normalised one, so the conversion loses nothing |
| SpacecraftTrail.PushFront | src/components/SpacecraftTrail.tsx:102-123 | after unshift-then-pop, the list starts with the new item, continues with the old list cut to fit, and has length min(old + 1, maxPoints) |
| SpacecraftTrail.Decayed | src/components/SpacecraftTrail.tsx:143 | every stored alpha is multiplied by the factor, and the length is kept |
| SpacecraftTrail.PushAll | src/components/SpacecraftTrail.tsx:102-123 | a run of `updateTrail` pushes, oldest first; `PushAllKeepsMostRecent` and `FullTrailIsLastPushes` state the result |
| SpacecraftTrail.BandHue | src/components/SpacecraftTrail.tsx:104-113 | the hue of the new point from the speed: 0.7 above 2, 0.6 above 1, else 0.5; `BandHueBySquaredSpeed` restates the bands on the squared speed |
| SpacecraftTrail.PushAllKeepsMostRecent | src/components/SpacecraftTrail.tsx:102-123 | starting empty, after any sequence of pushes the trail is the most recent `maxPoints` of them, newest first |
| SpacecraftTrail.FullTrailIsLastPushes | src/components/SpacecraftTrail.tsx:119-122 | after `maxPoints + k` pushes the trail is exactly the last `maxPoints` positions, newest first |
| SpacecraftTrail.BandHueBySquaredSpeed | src/components/SpacecraftTrail.tsx:105-113 | hue 0.7 iff speed > 2, 0.6 iff 1 < speed ≤ 2, 0.5 iff speed ≤ 1 (stated on the squared speed); zero velocity is cyan |
| SpacecraftTrail.PushLowersEveryAlpha | src/components/SpacecraftTrail.tsx:116-143 | after a push the new point's stored alpha is 0.97, every older one strictly drops, and all stay in (0, 1] |
| SpacecraftTrail.FrameLowersEveryAlpha | src/components/SpacecraftTrail.tsx:162-163 | on a frame every stored alpha strictly drops and stays in (0, 1] |
| SpacecraftTrail.Window | src/components/SpacecraftTrail.tsx:144 | the fade-in window sin(π·i/len) of a push |
| SpacecraftTrail.PushedAlpha | src/components/SpacecraftTrail.tsx:142-144 | the alpha a push writes: the decayed stored alpha times the window; `PushedAlphaWindow` bounds it |
| SpacecraftTrail.PushedAlphaWindow | src/components/SpacecraftTrail.tsx:144 | the alpha written on a push, `stored·sin(π·i/len)`, is 0 at the head and lies in [0, stored] along the trail |
| SpacecraftTrail.Wave | src/components/SpacecraftTrail.tsx:164 | the shimmer sin(5·time + 0.2·i)·0.1 + 0.9 of a frame |
| SpacecraftTrail.FrameAlpha | src/components/SpacecraftTrail.tsx:163-165 | the alpha a frame writes: the decayed stored alpha times the shimmer; `FrameAlphaWave` bounds it |
| SpacecraftTrail.FrameAlphaWave | src/components/SpacecraftTrail.tsx:164-165 | the alpha written on a frame lies in [0.8·stored, stored] |
| SpacecraftTrail.Trail.constructor | src/components/SpacecraftTrail.tsx:54-82 | every position slot is 0, every colour slot is (0, 0.95, 1), every alpha is 0, every uv is (i/maxPoints, 0); the lists are empty |
| SpacecraftTrail.Trail.UpdateTrail | src/components/SpacecraftTrail.tsx:100-150 | the points, colours and alphas are the pushed lists, the alphas then decayed by 0.97; equal lengths ≤ maxPoints are kept; the first `len` buffer slots hold the points, the colours and the windowed alphas, and later slots are unchanged |
| SpacecraftTrail.Trail.WriteBuffers | src/components/SpacecraftTrail.tsx:130-145 | the loop decays each stored alpha and writes slot i from entry i, leaving later slots alone |
| SpacecraftTrail.Trail.Frame | src/components/SpacecraftTrail.tsx:153-168 | without the mesh nothing changes; otherwise the clock advances by the delta, every stored alpha decays by 0.99, and the buffer holds the waved alphas |
| Spacecraft.GlowIntensity | src/components/Spacecraft.tsx:34 | the glow is 2 iff moving and boosting, 1 iff moving without boost, 0.5 iff not moving |
| Spacecraft.HoverBound | src/components/Spacecraft.tsx:31 | the hover moves the ship by at most 0.002 up or down |
| Spacecraft.GlowScaleRange | src/components/Spacecraft.tsx:36 | the glow mesh scale lies within 0.8 ± 0.2·glow, so within [0.4, 1.2] |
| Spacecraft.Advanced | src/components/Spacecraft.tsx:23-31 | the group position after adding the velocity and then the hover to its height; `HoverBound` bounds the hover |
| Spacecraft.Ship.constructor | src/components/Spacecraft.tsx:44-59 | a 150-point empty trail, a fresh controller at rest, and an emissive intensity of 0.5 |
| Spacecraft.Ship.ApplyMovement | src/components/Spacecraft.tsx:22-36 | the group moves by the velocity plus the hover; the body takes the new pitch and roll and keeps its yaw; glow and glow scale follow the movement flags |
| Spacecraft.Ship.Frame | src/components/Spacecraft.tsx:18-42 | with a mesh missing nothing changes; otherwise one movement step is applied. When the trail exists and the ship moves or boosts, the trail gets the new position, a colour from the new velocity's speed band and a fresh alpha, and its buffers are rewritten slot by slot with later slots kept. Otherwise the trail's lists and its three buffers are unchanged |
| CursorEffects.Moves | src/hooks/useCursorEffects.ts:34-35 | the trail after a run of mouse moves, each one pop-then-unshift; `MovesKeepRecent` states the result |
| CursorEffects.Shifted | src/hooks/useCursorEffects.ts:34-35 | pop-then-unshift keeps the trail's length (an empty trail grows to one), puts the new position first and shifts the rest back by one |
| CursorEffects.MovesKeepRecent | src/hooks/useCursorEffects.ts:34-35 | after any sequence of moves the trail keeps its length and holds those positions newest first, followed by the front of the old trail; after `trailLength` moves it is exactly the last `trailLength` positions |
| CursorEffects.CursorTracker.constructor | src/hooks/useCursorEffects.ts:10-18 | position, velocity and last position are zero, the trail is `trailLength` zero vectors, and the button is up |
| CursorEffects.CursorTracker.MouseMove | src/hooks/useCursorEffects.ts:21-39 | the position is the event's normalised coordinates, the velocity is its change since the last move, the trail is shifted and keeps its length, and the last position is updated |
| CursorEffects.CursorTracker.MouseDown | src/hooks/useCursorEffects.ts:41-43 | the button flag is set |
| CursorEffects.CursorTracker.MouseUp | src/hooks/useCursorEffects.ts:45-47 | the button flag is cleared |
| ParticleTrails.SpawnCount | src/components/ParticleTrails.tsx:35-36 | `Math.floor(speed * 10) + 1`; `SpawnBand` and `BurstFills` state what it gives |
| ParticleTrails.SpawnHue | src/components/ParticleTrails.tsx:41-46 | the burst hue: 0.6 above speed 0.05, otherwise 0.3; `SpawnBand` states it on the squared speed |
| ParticleTrails.SpawnTotal | src/components/ParticleTrails.tsx:38 | the spawn loop adds at most `spawnCount` particles, never goes past 1000, and adds at least one whenever there is room and the count is positive |
| ParticleTrails.NewParticle | src/components/ParticleTrails.tsx:48-63 | one pushed particle: cursor plus jitter of ±0.25, twice the cursor velocity plus jitter of ±0.1, life 1, the burst colour |
| ParticleTrails.Spawned | src/components/ParticleTrails.tsx:38-64 | a burst of `count` particles; `SpawnedAt` says which draws particle k takes, `SpawnedFresh` its life and colour |
| ParticleTrails.SpawnedAt | src/components/ParticleTrails.tsx:38-64 | the k-th particle of a burst is built from the six random draws starting at 6k |
| ParticleTrails.SpawnedFresh | src/components/ParticleTrails.tsx:61-62 | every spawned particle starts with life 1 and the burst's colour |
| ParticleTrails.SpawnBand | src/components/ParticleTrails.tsx:35-46 | at least one particle is requested per frame; the burst is blue iff the cursor speed > 0.05, and green otherwise |
| ParticleTrails.BurstFills | src/components/ParticleTrails.tsx:36-38 | a frame spawns min(floor(10·speed) + 1, 1000 - len) particles, so the field never exceeds 1000 |
| ParticleTrails.Step | src/components/ParticleTrails.tsx:69-87 | one step of the filter callback; `StepEffect` states each field of the result |
| ParticleTrails.Updated | src/components/ParticleTrails.tsx:68-88 | every particle stepped once with its own nudge; `UpdatedAt` states particle j |
| ParticleTrails.UpdatedAt | src/components/ParticleTrails.tsx:68-88 | particle j of the update pass is stepped with its own nudge, drawn from the three draws starting at base + 3j |
| ParticleTrails.StepEffect | src/components/ParticleTrails.tsx:70-87 | one step moves by the old velocity, sets the velocity to (v - 0.001·p' + jitter)·0.98 with each jitter in [-0.005, 0.005), ages by 0.01 and keeps the colour |
| ParticleTrails.Mortal | src/components/ParticleTrails.tsx:87-90 | a particle with life at most 1 fails the keep test after at most 100 steps, whatever its draws, since they never touch the life |
| ParticleTrails.Survivors | src/components/ParticleTrails.tsx:89-104 | the particles the filter keeps; `SurvivorsInOrder` states which, and in what order |
| ParticleTrails.SurvivorsInOrder | src/components/ParticleTrails.tsx:68-104 | the filter keeps exactly the particles whose life is still positive: every live index is kept, every kept index is live, in their original order |
| ParticleTrails.SurvivorsAppend | src/components/ParticleTrails.tsx:90-103 | one more particle joins the survivors if and only if its life is positive |
| ParticleTrails.Burst | src/components/ParticleTrails.tsx:34-64 | the particles one frame spawns into a field of `len`; `BurstFills` states how many |
| ParticleTrails.NextParticles | src/components/ParticleTrails.tsx:24-104 | the field after one rendered frame: spawn, step, keep the live ones; `NextIsLively` and `FrameReadsFirstDraws` state what it keeps and what it reads |
| ParticleTrails.NextIsLively | src/components/ParticleTrails.tsx:24-104 | after a frame the field is still within 1000 particles and every life is in (0, 1] |
| ParticleTrails.FrameReadsFirstDraws | src/components/ParticleTrails.tsx:38-81 | a frame reads only the first 6·spawned + 3·(len + spawned) random draws, at most 9·1000: two streams that agree on them give the same next field |
| ParticleTrails.PackedIsSurvivors | src/components/ParticleTrails.tsx:67-104 | the running-index pack over the first j particles equals the survivors of the stepped prefix |
| ParticleTrails.LivelyAfterStep | src/components/ParticleTrails.tsx:87-90 | after a step every survivor has life in (0, 0.99] |
| ParticleTrails.ParticleField.constructor | src/components/ParticleTrails.tsx:16-22 | an empty field with zeroed 3000-entry position and colour buffers |
| ParticleTrails.ParticleField.Frame | src/components/ParticleTrails.tsx:24-109 | without the mesh nothing changes; otherwise the field becomes the next collection (spawn, step, keep the live ones), buffer slot k shows particle k with its colour scaled by its life, and later slots are unchanged |
| ParticleTrails.ParticleField.Spawn | src/components/ParticleTrails.tsx:38-64 | the loop appends exactly `SpawnTotal` particles of the burst, and the field stays within capacity with lives in (0, 1] |
| ParticleTrails.ParticleField.WriteSlot | src/components/ParticleTrails.tsx:91-98 | slot `index` gets the particle's position and its colour times its life; every other slot is kept |
| ParticleTrails.ParticleField.UpdateAndPack | src/components/ParticleTrails.tsx:67-104 | the field becomes the survivors of the stepped particles, written in order to the front of the buffers |
| PlanetTexture.Unhash | src/utils/getPlanetTexture.ts:34 | `replace('#', '')` with a string pattern: a leading `#` is removed, a string without `#` is unchanged |
| PlanetTexture.UnhashFirst | src/utils/getPlanetTexture.ts:34 | wherever the first `#` stands, exactly that character is removed and the rest is kept |
| PlanetTexture.Substr | src/utils/getPlanetTexture.ts:35-37 | `substr` returns at most `length` characters, and the exact slice when it fits |
| PlanetTexture.ToHex | src/utils/getPlanetTexture.ts:38 | `toString(16)` writes at least one lowercase hex digit |
| PlanetTexture.PadTwo | src/utils/getPlanetTexture.ts:38 | `padStart(2, '0')` leaves two or more characters alone and left-pads shorter strings to two |
| PlanetTexture.ParseHex | src/utils/getPlanetTexture.ts:35-37 | `parseInt(s, 16)` for the short substrings the channels give it: skip white space, an optional sign and `0x`, read the hex digits, NaN when there are none; `ParsePair` states it on two lowercase digits |
| PlanetTexture.Brighten | src/utils/getPlanetTexture.ts:35-37 | a channel parses exactly when NaN does not come out; the result is in [0, 255], and equals value + amount when that is in range |
| PlanetTexture.BrightenMonotone | src/utils/getPlanetTexture.ts:35-37 | each channel is non-decreasing in the amount |
| PlanetTexture.ParsePair | src/utils/getPlanetTexture.ts:35-37 | `parseInt(pair, 16)` of two lowercase hex digits is the number they spell |
| PlanetTexture.ChannelTextTwoDigits | src/utils/getPlanetTexture.ts:38 | a clamped channel is always written as exactly two lowercase hex digits |
| PlanetTexture.ChannelText | src/utils/getPlanetTexture.ts:38 | `toString(16).padStart(2, '0')` of a channel, or `NaN` for a channel that did not parse; `ChannelTextTwoDigits` and `ChannelRoundTrip` state it |
| PlanetTexture.ChannelRoundTrip | src/utils/getPlanetTexture.ts:35-38 | a lowercase hex pair survives parsing and writing back unchanged |
| PlanetTexture.AdjustedIsHexColor | src/utils/getPlanetTexture.ts:33-39 | whenever the three channels parse, the result is a lowercase `#rrggbb` colour, whatever the amount |
| PlanetTexture.AdjustColor | src/utils/getPlanetTexture.ts:33-39 | `adjustColor`; `AdjustedIsHexColor`, `AdjustSplit`, `AdjustByZero`, `AdjustToWhite` and `AdjustToBlack` state what it gives |
| PlanetTexture.AdjustSplit | src/utils/getPlanetTexture.ts:33-39 | on a lowercase colour, `adjustColor` works on its three channel pairs |
| PlanetTexture.SaturatedChannel | src/utils/getPlanetTexture.ts:35-37 | a channel pushed by 255 or more either way saturates at `ff` or `00` |
| PlanetTexture.AdjustByZero | src/utils/getPlanetTexture.ts:33-39 | adjusting a lowercase colour by 0 gives the colour back |
| PlanetTexture.AdjustToWhite | src/utils/getPlanetTexture.ts:33-39 | adding 255 or more turns any lowercase colour into `#ffffff` |
| PlanetTexture.AdjustToBlack | src/utils/getPlanetTexture.ts:33-39 | subtracting 255 or more turns any lowercase colour into `#000000` |
| PlanetTexture.PlanetColor | src/utils/getPlanetTexture.ts:42-63 | the colour the `getPlanetTexture` switch hands to `createColorTexture`; `PlanetTable` and `PlanetColorsDistinct` state the table |
| PlanetTexture.PlanetTable | src/utils/getPlanetTexture.ts:42-63 | every entry is a lowercase colour, and the eight planets are exactly the names that are not white |
| PlanetTexture.PlanetColorsDistinct | src/utils/getPlanetTexture.ts:43-59 | no two planets share a colour |
| PlanetTexture.PlanetGradient | src/utils/getPlanetTexture.ts:11-13 | the gradient's far end, `adjustColor(color, -20)`, is a lowercase colour, and an adjustment of 0 is the identity |
| SectorContent.FloorDiv | src/components/SectorContent.tsx:163 | `Math.floor(a / b)` is the q with q·b ≤ a < (q + 1)·b |
| SectorContent.JsRem | src/components/SectorContent.tsx:164-166 | JavaScript's `%` takes the sign of the dividend, with magnitude below the divisor |
| SectorContent.JsRemDivision | src/components/SectorContent.tsx:164-166 | `a % b` is the remainder of the truncating division: a = trunc(a/b)·b + a % b, so a - r is a whole multiple of b |
| SectorContent.Decompose | src/components/SectorContent.tsx:163-166 | the four fields of `updateCountdown`; `CountdownBounds`, `CountdownTotal` and `CountdownAfterLaunch` state them |
| SectorContent.CountdownBounds | src/components/SectorContent.tsx:163-166 | before the launch, days ≥ 0, hours in [0, 24), minutes and seconds in [0, 60) |
| SectorContent.CountdownTotal | src/components/SectorContent.tsx:163-166 | before the launch the four fields add up to the difference minus less than one second |
| SectorContent.CountdownAfterLaunch | src/components/SectorContent.tsx:161-166 | after the launch days are negative and no other field is positive |
| SectorContent.OneMillisecondLate | src/components/SectorContent.tsx:163-166 | one millisecond after the launch every field reads -1 |
| SectorContent.DecimalRoundTrip | src/components/SectorContent.tsx:168 | the decimal digits written for a number spell that number |
| SectorContent.ShowInjective | src/components/SectorContent.tsx:168 | different numbers are shown as different strings |
| SectorContent.Display | src/components/SectorContent.tsx:168 | the text `${days}d ${hours}h ${minutes}m ${seconds}s`; `ShowInjective` makes each field's text one-to-one |
| SectorContent.Title | src/components/SectorContent.tsx:177-281 | the heading of each route, none for any other path; `TitleDefined` and `TitlesDistinct` state it |
| SectorContent.TitleDefined | src/components/SectorContent.tsx:178-281 | a path has a heading if and only if it is one of the seven routes; every other path renders nothing |
| SectorContent.TitlesDistinct | src/components/SectorContent.tsx:178-281 | each of the seven routes has a heading of its own |
| Experience.CameraTarget | src/components/Experience.tsx:45-57 | a known path flies to its table entry, and any other path to (0, 0, 15) |
| Experience.SectorsHaveCameras | src/components/Experience.tsx:45-54 | every HUD sector's path has an entry in the camera table |
| Experience.Progress | src/components/Experience.tsx:61-67 | progress is in [0, 1] for elapsed ≥ 0, and it is 1 exactly when 1500 ms have passed |
| Experience.Ease | src/components/Experience.tsx:71-73 | the cubic ease-in-out curve; `EaseEndpoints`, `EaseMonotone`, `EaseRange` and `EaseSymmetric` state its shape |
| Experience.EaseEndpoints | src/components/Experience.tsx:71-73 | ease(0) = 0, ease(0.5) = 0.5, ease(1) = 1 |
| Experience.EaseCubes | src/components/Experience.tsx:71-73 | the two halves are 4t³ and 4(t - 1)³ + 1 |
| Experience.EaseMonotone | src/components/Experience.tsx:71-73 | the easing curve is non-decreasing on all reals |
| Experience.EaseRange | src/components/Experience.tsx:71-73 | the curve maps [0, 1] into [0, 1] |
| Experience.EaseSymmetric | src/components/Experience.tsx:71-73 | ease(1 - t) = 1 - ease(t) |
| Experience.LerpEnds | src/components/Experience.tsx:75 | lerping with fraction 1 lands on the target, and with 0 stays at the start |
| Experience.Scene.constructor | src/components/Experience.tsx:148 | the camera starts at (0, 0, 15) |
| Experience.Scene.Begin | src/components/Experience.tsx:56-63 | a route change starts a flight from the current camera position to the route's camera target, timed from now; the effect then runs `Animate(now)` once |
| Experience.Scene.Animate | src/components/Experience.tsx:65-80 | the camera is on the eased point of the flight; another frame is requested iff less than 1500 ms have passed; once none is, the camera is exactly on the target |
| Hud.SectorsWithContent | src/App.tsx:111-121 | a button's path has a routed heading iff it is not `/explore`, and only the first button leads to `/explore` |
| Hud.SectorsDistinct | src/components/HUD.tsx:48-57 | the table has eight sectors, no two sharing an id or a path |
| Hud.IsActive | src/components/HUD.tsx:74 | the `$active` test of a button; `AtMostOneActive` and `ClickHighlights` state it |
| Hud.AtMostOneActive | src/components/HUD.tsx:74 | whatever the active sector is, at most one button is highlighted |
| Hud.ClickHighlights | src/components/HUD.tsx:64-74 | after a click on one button, that button and no other is highlighted |
| Hud.HudState.constructor | src/components/HUD.tsx:62 | the highlighted sector starts as the current pathname |
| Hud.HudState.HandleNavigation | src/components/HUD.tsx:64-67 | the highlighted sector and the router's path both become the clicked path |
| NavigationControls.EscapeTarget | src/hooks/useNavigationControls.ts:9-16 | a navigation happens if and only if the key is Escape on `/explore`, and it goes to `/` |
| NavigationControls.AfterKey | src/hooks/useNavigationControls.ts:9-16 | the path after a key press; `KeyOutcome` and `EscapeIdempotent` state it |
| NavigationControls.KeyOutcome | src/hooks/useNavigationControls.ts:10-14 | Escape on `/explore` leads to `/`; any other key, or Escape on any other path, leaves the path as it is |
| NavigationControls.EscapeIdempotent | src/hooks/useNavigationControls.ts:12-14 | after an Escape the path is never `/explore`, so a second Escape changes nothing |
| NavigationControls.Router.constructor | src/hooks/useNavigationControls.ts:6 | the router starts on the given path |
| NavigationControls.Router.Navigate | src/hooks/useNavigationControls.ts:13 | `navigate` sets the path |
| NavigationControls.Router.HandleKeyDown | src/hooks/useNavigationControls.ts:9-16 | the keydown listener moves the router exactly as `AfterKey` says; without a navigation the path is unchanged |

## Left out

- Floating point: all numbers are real numbers, so NaN, infinities, rounding and `Float32Array` narrowing are not modelled. The exact frame on which a particle dies is one example of what this leaves out.
- `Math.sqrt`, `Math.sin`, `Math.PI`, `Color.setHSL` and the mouse-aim quaternion are not computed. They are abstract functions in `MathLib.Maths`, with only the facts the proofs need: sqrt is the non-negative root, sine lies in [-1, 1] and is non-negative on [0, π], π is between 3.14 and 3.15, HSL colours lie in the unit cube, and the rotation preserves length.
- `Math.random()` is modelled as a finite stream of draws in [0, 1), read in the order the code makes them: six per spawned particle, then three per stepped particle. A draw past the end of the stream reads 0.5.
- The `direction` vector of `updateMovement` (src/hooks/useSpacecraftControls.ts:172, 177) is not modelled. Nothing in the core reads it.
- The frame time, the clock's elapsed time and `Date.now()` are parameters. The target date of the countdown, the interval timer that updates it, and the loading and ready timers are not part of this model.
- Null checks on React refs (`group.current`, `trailRef.current`, `points.current`) are boolean parameters (`mounted`, `trailMounted`, `rendered`).
- Window and document-rectangle sizes are parameters and must be positive. A zero-sized window would divide by zero in the source.
- Rendering is not modelled: shaders, materials, geometry construction, `needsUpdate` flags, the trail's `time` uniform, lights, stars, orbit controls, bloom, and all styling and text other than the route headings.
- ParticleTrails.ParticleField: the particles are values in a sequence that each frame rebuilds, as the filter does. The in-place mutation of each particle object inside the filter callback is not modelled, and no other code holds those objects.
- Experience.Scene.Animate: it is one frame of the animation, and `again` says whether `requestAnimationFrame` is called. The scheduler loop itself is not modelled. Neither is a second flight started mid-flight, whose frames would interleave with the first one's.
- `createColorTexture`'s canvas painting and its noise loop are left out. So is `createRingsTexture`. `adjustColor` is modelled for integer amounts only; the noise loop's non-integer amounts would print hex fractions.
- `parseInt` is modelled for the at-most-two-character substrings that `adjustColor` gives it: white space, sign, `0x` prefix, hex digits, and NaN. A channel that does not parse is written as `NaN`.
- Event-listener registration and removal, including the effects' dependency lists, are not modelled. The router is only its current path, without history.
- SpacecraftControls.TiltStaysBounded: it proves the [-1, 1] tilt bound only while 1.5·delta ≤ 1, because the code does not clamp that fraction and the bound can fail for longer frames.
- Hud.HudState: the highlighted sector changes only through `HandleNavigation`. An Escape from `/explore` moves the router to `/` but leaves the explore button highlighted, as in the source.
