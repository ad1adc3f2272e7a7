# Voicedraw ink world, modelled in Dafny

Voicedraw is a drawing toy. A ball drifts inside a circular world, and as it moves it stamps ink
into an off-screen buffer. The camera follows the ball. The microphone's low and high frequency
bands and its energy push the ball and change its size. Pointer gestures also act on the world:
a press starts a ripple that pushes the ball away, a drag pulls the ball along, a release flings
it, and a long press drops a watercolour droplet and starts a wobble.

The project models:

- the single-file ink world (`js/ink-world.js`): its scene, its pointer handlers, its frame step
  and its frame render;
- the split modules that the single file was cut into:
  - the physics of `js/ink-world-physics.js`;
  - the renderer of `js/ink-world-renderer.js`;
  - the drawing modes of `js/ink-world-modes.js`;
- the microphone feature extractor of `js/audio.js`;
- the gesture recogniser and event pool of `js/resonance-system.js`.

Modules, one concept each:

| module | file | models |
|---|---|---|
| `Maths` | maths.dfy | clamp, ceiling, the one-pole filter `cur += (target - cur) * k` and its iterates, uniform draws, and the transcendental functions as a `Library` parameter with stated laws |
| `Geometry` | geometry.dfy | points, squared distance, the screen/world/buffer coordinate maps |
| `Pool` | pool.dfy | the "walk from the end, age each element, splice out the expired" loop that the event pool, the ripples and the droplets all use, as a function with its characterising lemmas |
| `Audio` | audio.dfy | `createAudioEngine`: band averages, the idle drift, the snapshot |
| `Modes` | modes.dfy | the three profiles, the palette pick, the mode state |
| `Scene` | scene.dfy | the objects the ink world shares between handlers, physics and renderer (a `class` with one field per object), and `triggerLongPress` |
| `Physics` | physics.dfy | `applyForces`, `integrate` and `bounceInCircle` as methods on the scene |
| `Renderer` | renderer.dfy | the ink buffer (a `class`), ink stamping along the stroke, watercolour washes, and the frame as a list of draw commands |
| `Resonance` | resonance.dfy | `createResonanceSystem`: pointer state machine, event pool, voice events |
| `InkWorld` | inkworld.dfy | `createInkWorld`: the monolithic closure, built from the modules above with its own fixed constants |

Canvas drawing is represented as a log of commands. Stamps go to the ink buffer's `marks`, and
`Draw` commands make up the screen frame. The ink itself is not rasterised. The clock, the view
size, `Math.random` and the transcendental functions are parameters.

## Model

| member | source | states |
|---|---|---|
| Maths.Clamp | js/resonance-system.js:5-7 | For a non-empty range the result lies in the range. It is the value itself when the value is inside, the nearer bound when outside. |
| Maths.Ceil | js/ink-world-renderer.js:95 | `Math.ceil` is the least integer at or above its argument. |
| Maths.ApproachGap | js/ink-world-physics.js:17-20 | One smoothing step multiplies the distance to the target by exactly `1 - k`. |
| Maths.ApproachStaysIn | js/ink-world-physics.js:18-20 | With `0 <= k <= 1`, a smoothing step never leaves an interval that holds both the current value and the target. |
| Maths.RelaxedDistance | js/audio.js:35-39 | After `n` filter steps towards a fixed target, the distance to the target is `(1-k)^n` times the starting distance. |
| Maths.PowerInUnit | js/audio.js:35-39 | Powers of a factor in [0, 1] stay in [0, 1], so repeated filtering never overshoots. |
| Maths.UnitSpan | js/resonance-system.js:155 | `base + random() * span` lies in `[base, base + span)`. |
| Maths.UnitFloor | js/ink-world.js:183 | `floor(random() * n)` is a valid index into a list of length `n`. |
| Geometry.Dist2 | js/ink-world.js:113-117 | The squared distance is non-negative and zero from a point to itself. |
| Geometry.ScreenToWorld | js/ink-world.js:98-100 | Mapping a screen point to the world and back gives the screen point. |
| Geometry.CameraRoundTrip | js/ink-world.js:98-104 | `screenToWorld` and `worldToScreen` are mutually inverse for every camera. |
| Geometry.WorldToBuffer | js/ink-world.js:106-111 | The world centre maps to the middle of the ink buffer. |
| Geometry.BufferSide | js/ink-world-renderer.js:27 | The buffer side is at least `2R + 200`. |
| Geometry.InsideBuffer | js/ink-world.js:71-78 | Every point of the world lands in the buffer with at least 100 pixels of margin on each side. |
| Pool.Step | js/resonance-system.js:44-52 | Ageing a pool never lengthens it, and no survivor is expired. |
| Pool.StepAppend | js/ink-world.js:413-426 | Ageing distributes over concatenation: a droplet appended before the ageing loop is aged like the others. |
| Pool.StepAt | js/resonance-system.js:44-52 | Survivor `i` is the aged version of the element at the `i`-th kept index, so the relative order is kept. |
| Pool.KeptIncreasing | js/resonance-system.js:44-52 | The kept indices are strictly increasing: the splice loop never reorders. |
| Pool.KeptExactly | js/resonance-system.js:44-52 | An index is kept if and only if its aged element is not expired. |
| Pool.SurvivorsComeFromPool | js/resonance-system.js:44-52 | Every survivor is the aged version of some element of the old pool and is not expired. |
| Pool.StepKeeps | js/resonance-system.js:44-52 | A property that ageing preserves holds for every survivor. |
| Pool.SpliceStep | js/resonance-system.js:45-51 | One iteration of the backward splice loop keeps the prefix untouched and extends the processed suffix by one element, spliced out or replaced. |
| Audio.BandSum | js/audio.js:44-56 | A sum of bytes over `hi - lo` bins lies in `[0, 255 (hi - lo)]`. |
| Audio.Mean | js/audio.js:58-59 | A band mean divided by 255 lies in [0, 1]. |
| Audio.LowBand | js/audio.js:44-58 | The low band, the scaled mean of bins 2 to 39, lies in [0, 1]. |
| Audio.HighBand | js/audio.js:51-59 | The high band lies in [0, 1], and it is 0 when the spectrum has no bin past 150. |
| Audio.RawEnergy | js/audio.js:60 | The energy target is never above 1, and it is not negative when both bands are not. |
| Audio.FeaturesInUnit | js/audio.js:53-60 | `low`, `high` and `energy` all lie in [0, 1]. With at most 150 bins the high band is empty and reads 0. |
| Audio.BandSumUniform | js/audio.js:44-56 | A constant spectrum sums to the constant times the band width. |
| Audio.MeanUniform | js/audio.js:58-59 | The mean of a constant band is that constant over 255. |
| Audio.UniformSpectrum | js/audio.js:44-60 | For a constant spectrum `v`, `low = high = v/255` and `energy = min(1, 1.1 v/255)`. |
| Audio.SilentSpectrum | js/audio.js:44-60 | A silent spectrum gives zero for all three features. |
| Audio.AudioEngine.constructor | js/audio.js:2-10 | The engine starts off, with no buffer and zero features. |
| Audio.AudioEngine.Start | js/audio.js:12-32 | The result and the `on` flag are whether the microphone was granted. A grant allocates a zeroed 512-bin buffer; a refusal keeps the old buffer. |
| Audio.AudioEngine.Update | js/audio.js:34-65 | When off, the features drift towards 0.12/0.1/0.1 at rate 0.03. When on, the buffer holds the spectrum and each feature is filtered towards its band value (0.12 for low and high, 0.1 for energy). All three stay in [0, 1]. |
| Audio.AudioEngine.GetState | js/audio.js:67-74 | The snapshot carries the current flag and features, each in [0, 1]. |
| Audio.IdleDrift | js/audio.js:35-39 | With the microphone off, energy converges geometrically to 0.12: after `n` frames its gap is `0.97^n` times the initial gap. |
| Modes.ModeSettings | js/ink-world-modes.js:1-171 | Exactly the keys "sumi", "firework" and "generatif" have a profile, and every profile is well formed: damping friction and restitution, a positive speed limit, non-negative force scales, positive radius curves, a non-empty ring range and non-empty palettes. |
| Modes.ProfilesDistinct | js/ink-world-modes.js:1-171 | The three profiles carry their own titles and are pairwise different. |
| Modes.PaletteIndex | js/ink-world-modes.js:198-200 | The index is at most `n - 1`. It is non-negative for a sine in [-1, 1], and equals `floor((s+1)/2 n)` below the top end. |
| Modes.PaletteIndexMonotone | js/ink-world-modes.js:198-200 | A larger sine never picks an earlier palette entry. |
| Modes.PaletteIndexEnds | js/ink-world-modes.js:198-200 | Sine -1 picks the first entry and sine 1 the last. |
| Modes.PickFromPalette | js/ink-world-modes.js:196-201 | An empty palette gives nothing, and a sine in range always picks an entry of the palette. |
| Modes.PickOrFirst | js/ink-world-modes.js:203-224 | For a non-empty palette the pick is always an entry of the palette (the first one as fallback), and in range it is the palette pick. |
| Modes.GetInkStops | js/ink-world-modes.js:204-207 | For a well-formed mode, the ink stops come from the mode's ink palette. |
| Modes.GetWatercolorPick | js/ink-world-modes.js:209-212 | For a well-formed mode, the wash colour comes from the mode's watercolour palette. |
| Modes.GetDropletPick | js/ink-world-modes.js:214-217 | For a well-formed mode, the droplet colour comes from the mode's droplet palette. |
| Modes.ModeState.constructor | js/ink-world-modes.js:173-183 | The state holds the profile its key selects and that profile's background. |
| Modes.ModeState.ApplyMode | js/ink-world-modes.js:185-194 | An unknown key changes nothing and resets nothing. A known key switches profile and background, and the reset callback runs exactly once when supplied. |
| Scene.LongPressColour | js/ink-world.js:179-183 | The random colour choice is always one of the two long-press palette entries. |
| Scene.LongPressDroplet | js/ink-world.js:184-191 | A long-press droplet is new (age 0), has a positive life and a long-press colour. |
| Scene.WorldRadius | js/ink-world.js:10-14 | The world radius is 1.35 times the smaller view side, hence non-negative. |
| Scene.Scene.constructor | js/ink-world.js:10-57 | The scene starts with a centred ball at rest, an idle pointer, no ripples or droplets, and no wobble, and it is valid. |
| Scene.Scene.TriggerLongPress | js/ink-world.js:178-200 | One droplet and one strong ripple are appended, the wobble restarts at full strength, and the scene invariant is kept. |
| Physics.Wave | js/ink-world-physics.js:45 | The ripple wave lies in [0, 1] for non-negative ages and is zero once the ripple has lived its life. |
| Physics.Kick | js/ink-world-physics.js:42-49 | A ripple that has lived its full 1.2 s gives the ball no kick. |
| Physics.KickSum | js/ink-world-physics.js:34-50 | A pool whose ripples have all lived their life gives no kick in total. |
| Physics.KickPushesAway | js/ink-world-physics.js:42-49 | A ripple's impulse points along the ripple-to-ball direction: it pushes the ball away and never sideways. |
| Physics.SmoothFactor | js/ink-world-physics.js:17 | `1 - 0.001^dt` is in [0, 1), so audio smoothing never overshoots. |
| Physics.RadiusFor | js/ink-world-physics.js:70-75 | The radius stays between the base and the base plus the energy scale. |
| Physics.LatchOncePerPress | js/ink-world-physics.js:52-59 | Once latched, the long press cannot fire again during the same press. An unlatched, undragged press held past 0.45 s fires at any later time. |
| Physics.LatchFires | js/ink-world-physics.js:52-54 | The latch fires only for a pressed pointer held more than 450 ms, and never while the ball is dragged or once it has fired. |
| Physics.PressPoint | js/ink-world-physics.js:55 | The long press acts at the world point shown under the pointer. |
| Physics.Wobbled | js/ink-world-physics.js:61-64 | A spent wobble is left alone, and a live one only decays. |
| Physics.WobbleKick | js/ink-world-physics.js:65-67 | A wobble of zero strength gives no kick. |
| Physics.WobbleKickBounded | js/ink-world-physics.js:65-67 | Each component of the wobble's kick is at most `wobbleForce * strength * dt` in size. |
| Physics.ClampSpeed | js/ink-world-physics.js:77-83 | The speed never exceeds `vmax`. Slow velocities are untouched. Fast ones are scaled onto the `vmax` circle in the same direction. |
| Physics.SpeedLimited | js/ink-world-physics.js:77-83 | The limited velocity never exceeds `vmax`. |
| Physics.AgeRipples | js/ink-world-physics.js:34-50 | Ripples are aged and pruned as in the pool loop, and the velocity gains exactly the sum of the survivors' kicks. |
| Physics.RippleKicks | js/ink-world-physics.js:34-50 | The backward loop yields the pool step of the ripples and the sum of their kicks. |
| Physics.Latch | js/ink-world-physics.js:52-59 | The latch fires exactly when the press qualifies. Firing records it on the pointer, drops a long-press droplet and ripple at the press point, and restarts the wobble. |
| Physics.ApplyForces | js/ink-world-physics.js:12-84 | The audio features are filtered by the smoothing factor. The radii follow the mode's curves, the speed ends within `maxSpeed`, the latch and wobble update as stated, and the velocity is the composed force function limited to `maxSpeed`. |
| Physics.Accelerate | js/ink-world-physics.js:13-68 | Friction, drift, audio push, ripple kicks and wobble give exactly the composed velocity; the position and radii are unchanged. |
| Physics.Effects | js/ink-world-physics.js:34-68 | Ripples, the long-press latch and the wobble add exactly their kicks to the velocity. |
| Physics.SteerBall | js/ink-world-physics.js:13-32 | The features are filtered by the smoothing factor and stay in [0, 1]. The velocity becomes friction, drift and audio push applied to the old one, and the position and radii are kept. |
| Physics.WobbleStep | js/ink-world-physics.js:61-68 | The wobble decays and adds its kick only while stronger than 0.001. |
| Physics.ShapeBall | js/ink-world-physics.js:70-83 | The radii follow the curves and the velocity is speed-limited, so the speed ends within `maxSpeed`. |
| Physics.Integrate | js/ink-world-physics.js:86-89 | The position advances by velocity times `dt`, and nothing else changes. |
| Physics.Bounced | js/ink-world-physics.js:91-116 | Inside the limit the ball is untouched. Outside it, the ball is put back on the circle of radius `R - r`, and whenever `R >= r` it ends within that circle. |
| Physics.BounceVelocity | js/ink-world-physics.js:104-114 | The bounced velocity's normal part is the incoming one reversed and scaled by the restitution, and its tangential part gains the spin. |
| Physics.BounceInCircle | js/ink-world-physics.js:91-116 | The ball becomes its bounced self and ends inside the world whenever the world is larger than the ball. |
| Renderer.InkBuffer.constructor | js/ink-world.js:59-60 | A fresh buffer has the canvas default size 300 x 150 and no marks. |
| Renderer.ResizeInkBuffer | js/ink-world-renderer.js:26-33 | The buffer becomes a square of the buffer side, is cleared to the background, and holds every world point with a 100-pixel margin. |
| Renderer.StampStep | js/ink-world-renderer.js:94 | The stamp spacing is at least 1 and at least 0.35 of the ink radius. |
| Renderer.StampCount | js/ink-world-renderer.js:95 | At least one stamp, enough stamps to cover the distance, and no more than needed. |
| Renderer.Trail | js/ink-world-renderer.js:97-100 | The stroke is `count` evenly spaced points: the first one gap past the last stamp, each next one the same gap further, and the last exactly at the ball. |
| Renderer.StampPoint | js/ink-world-renderer.js:97-99 | Interpolation parameter 0 gives the last stamp and `count` gives the ball. |
| Renderer.TrailGap | js/ink-world-renderer.js:97-100 | Consecutive stroke points are one `count`-th of the displacement apart. |
| Renderer.TrailGaps | js/ink-world-renderer.js:97-100 | All `count` gaps of a stroke are the same, one `count`-th of the displacement. |
| Renderer.TrailSpacing | js/ink-world-renderer.js:91-100 | Every two consecutive dabs of a stroke are at most one stamp step apart, so the stroke has no gaps. |
| Renderer.DabsForPoints | js/ink-world-renderer.js:35-54 | Dab `i` has the ink radius and the stops chosen for stroke point `i`, and its centre maps back to that point in the world. |
| Renderer.StampInkToBuffer | js/ink-world-renderer.js:90-104 | The buffer gains exactly the dabs along the stroke from the last stamp to the ball, and the last stamp moves to the ball. |
| Renderer.Rings | js/ink-world-renderer.js:68-85 | There are `n` rings. Drawn from values in [0, 1), each has a spread in [0.8, 1.5) times the base radius, ellipse radii in [0.8, 1.15) and [0.7, 1.1) times the spread, and a rotation under half a turn. |
| Renderer.WashBounds | js/ink-world-renderer.js:58-69 | The ring count lies between the mode's minimum and maximum, the base radius within its jitter, and every spread within [0.8, 1.5) of the base. |
| Renderer.BaseInRange | js/ink-world-renderer.js:58 | The base radius lies in `[baseRadius, baseRadius + jitter]`. |
| Renderer.RingCountInRange | js/ink-world-renderer.js:59-61 | The ring count lies in `[ringMin, ringMax]`. |
| Renderer.RingSpread | js/ink-world-renderer.js:69 | A ring's spread lies in [0.8, 1.5) times the base radius. |
| Renderer.RingShape | js/ink-world-renderer.js:69-80 | A ring drawn from four values in [0, 1) has its spread, ellipse radii and rotation in range. |
| Renderer.StampWatercolorAt | js/ink-world-renderer.js:56-88 | The buffer gains exactly one wash at the point's buffer position, with the drawn number of rings (none for a non-positive count) and the picked colour. |
| Renderer.DropDraws | js/ink-world-renderer.js:143-171 | One drop per droplet, in pool order. Each drop sits where the camera shows its droplet, and carries the droplet's colours. |
| Renderer.Render | js/ink-world-renderer.js:173-180 | The screen is cleared first and never again. The ink window follows, then the border centred where the camera shows the world's centre, then the drops. The ball is drawn last and only there, where the camera shows it, with its radius. |
| Renderer.InkWindow | js/ink-world-renderer.js:106-121 | The copied window is view-sized, and its corner is the buffer pixel of the camera's world point. |
| Renderer.InkUnderBall | js/ink-world-renderer.js:106-121 | The copied ink window and `worldToScreen` agree: ink stamped for a world point appears exactly where that point is drawn. |
| Resonance.UpdateEventsExact | js/resonance-system.js:44-52 | An event survives if and only if `age + dt < ttl`. Survivors keep their order and are aged by `dt`. |
| Resonance.DoubleTapBySquares | js/resonance-system.js:67-70 | The hypot-based double-tap test equals the squared-distance test `dx² + dy² < 36²` inside the 320 ms window. |
| Resonance.IsDoubleTap | js/resonance-system.js:67-70 | A second press on the anchor itself within 320 ms is a double tap; a press 320 ms or more after the anchor never is. |
| Resonance.HitsBall | js/resonance-system.js:73 | A press on the drawn ball always targets the ball, and none farther than twice its radius from the centre does. |
| Resonance.DoubleTapEvent | js/resonance-system.js:79-85 | A double tap emits a new pulse at the ball. |
| Resonance.PressEvent | js/resonance-system.js:93-100 | A press emits a new pulse at the press point, aimed at the ball. |
| Resonance.DragTone | js/resonance-system.js:127 | Without audio or centroid the drag tone is 0.5. |
| Resonance.DragEvent | js/resonance-system.js:117-129 | A drag emits a vibrato if and only if the audio is on with centroid above 0.55, otherwise a trace. It runs from the old to the new point with intensity in [0.2, 1]. |
| Resonance.Splashes | js/resonance-system.js:156-162 | There are `n` splashes. Drawn from values in [0, 1), each has an angle under a full turn, a rotation under half a turn, and radius and ellipse radii in the shape's `[base, base + span)`. |
| Resonance.SplashCount | js/resonance-system.js:149 | A ball splash has 6 to 12 particles. |
| Resonance.BallSplashEvent | js/resonance-system.js:148-163 | A tap on the ball emits a new splash at the ball with 6 to 12 particles and a lifetime in [0.45, 0.6). |
| Resonance.TapWaves | js/resonance-system.js:164-183 | A world tap emits one wave, or two when the voice is active. The second wave's intensity is in [0.5, 1] and its phase is 0.35. |
| Resonance.ReleaseEvents | js/resonance-system.js:147-185 | A moved or long press emits nothing. A short, still press emits a splash on the ball or waves in the world. |
| Resonance.Boost | js/resonance-system.js:198 | The echo boost is either 1 or 1.35. |
| Resonance.BurstCount | js/resonance-system.js:209-210 | An attack above 0.08 bursts into at least 6 particles. |
| Resonance.VoiceEvents | js/resonance-system.js:197-226 | An active voice emits a halo at the ball, followed by an attack burst of the stated size when attacking. An inactive voice emits nothing. |
| Resonance.HoldEvent | js/resonance-system.js:228-250 | A held pointer emits long-press ink past 0.5 s, with intensity in [0.6, 1] and the low band as tone, and a press pulse before. |
| Resonance.Cleared | js/resonance-system.js:256-259 | Reset releases and disarms the pointer and drops its id. The position and the tap anchor are kept. |
| Resonance.ClearedIdempotent | js/resonance-system.js:254-261 | Resetting the pointer twice is the same as once. |
| Resonance.FromSnapshot | js/audio.js:67-74 | Fed the engine's snapshot, the voice counts as active exactly when on with energy above 0.02. It is never vibrato, never attacking, and its drag tone is 0.5. |
| Resonance.EngineHasNoTimbre | js/resonance-system.js:117-127 | Fed by the audio engine's snapshot, drags are never vibrato, the drag tone is 0.5, and the voice never emits an attack burst. |
| Resonance.ResonanceSystem.constructor | js/resonance-system.js:15-38 | The system starts with the initial pointer, no boost, no audio and no events. |
| Resonance.ResonanceSystem.Emit | js/resonance-system.js:40-42 | The event is appended with age 0. |
| Resonance.ResonanceSystem.UpdateEvents | js/resonance-system.js:44-52 | The backward splice loop leaves exactly the pool step of the events: every survivor is live. |
| Resonance.ResonanceSystem.PointerDown | js/resonance-system.js:54-101 | The pointer is pressed and armed, with its target decided by the ball test. A double tap clears the anchor, sets the boost window and emits the double-tap pulse. Otherwise the press becomes the new anchor and a press pulse is emitted. |
| Resonance.ResonanceSystem.PointerMove | js/resonance-system.js:103-131 | A foreign or idle move changes nothing. Otherwise the pointer follows, `moved` is sticky, and a drag event is emitted exactly when the step exceeds 0.5. |
| Resonance.ResonanceSystem.PointerUp | js/resonance-system.js:133-190 | A foreign release changes nothing. A release after the long press fired only lifts the pointer. Otherwise the release events are emitted and the pointer is lifted, disarmed and forgets its id. |
| Resonance.ResonanceSystem.Update | js/resonance-system.js:192-252 | The new pool is the aged pool followed by the voice events and, while pressed, the hold event. The audio is remembered, and holding past 0.5 s disarms the pointer. |
| Resonance.ResonanceSystem.Reset | js/resonance-system.js:254-261 | The pool is emptied, the pointer cleared and the boost reset. |
| InkWorld.CameraFor | js/ink-world.js:304-307 | The camera puts the ball at the centre of the view. |
| InkWorld.GrabsDrawnBall | js/ink-world.js:132-134 | A press on the drawn ball always grabs it, and a press farther than `sqrt(5) r` never does. |
| InkWorld.Grabs | js/ink-world.js:133-134 | A press whose squared distance to the ball is at most `r^2` grabs it. |
| InkWorld.Dragged | js/ink-world.js:158-164 | Dragging moves the ball 35% of the way to the pointer, so its squared distance shrinks to 0.4225 of what it was. The velocity gains 0.06 of the pointer motion and the radii are kept. |
| InkWorld.Flung | js/ink-world.js:171-174 | The ball stays where it is, with its radii. Its velocity changes along the pointer's last motion, by 0.12 of that motion's length; a pointer that did not move leaves the ball unchanged. |
| InkWorld.ReleasedNeverLatches | js/ink-world.js:242-249 | A released pointer never triggers the long press. |
| InkWorld.SpentIffDone | js/ink-world.js:385-389 | The render loop's `age / life >= 1` is the step loop's `age >= life`. |
| InkWorld.RenderKeepsStepped | js/ink-world.js:382-389 | After a step, the render-time pruning removes nothing. |
| InkWorld.BackwardsIsReversed | js/ink-world.js:383-390 | Drawing droplets from the end gives the drops of the reversed pool. |
| InkWorld.Reversed | js/ink-world.js:383 | The reversal keeps the length and puts element `|s| - 1 - i` at index `i`. |
| InkWorld.DrawnBackwards | js/ink-world.js:383-410 | One drop per droplet: the last droplet is drawn first and the first one last. |
| InkWorld.DrawStep | js/ink-world.js:383-389 | Visiting index `i` draws that droplet after those past it, unless it is spent. |
| InkWorld.InkWorld.constructor | js/ink-world.js:10-60 | A new world has the view's radius and a centred ball at rest. The camera and the last stamp are at the origin, the smoothed features and the wobble are zero, and the pointer is idle with no id. There are no ripples or droplets, and the ink buffer is empty. |
| InkWorld.InkWorld.UpdateCamera | js/ink-world.js:304-307 | The camera centres the ball in the view. |
| InkWorld.InkWorld.ResetWorld | js/ink-world.js:80-96 | The world, ball, last stamp, buffer and camera are set from the view alone, so resetting twice equals resetting once. |
| InkWorld.InkWorld.PointerDown | js/ink-world.js:119-142 | The pointer is pressed with this id, at rest and unlatched. It grabs the ball exactly when near it, and a ripple starts under it at half strength when grabbing. |
| InkWorld.InkWorld.PointerMove | js/ink-world.js:144-165 | A foreign move changes nothing. Otherwise the pointer follows with its motion recorded, and a grabbed ball is dragged. |
| InkWorld.InkWorld.PointerUp | js/ink-world.js:167-176 | A foreign release changes nothing. Otherwise the press ends unlatched and undragged, and a dragged ball is flung. |
| InkWorld.InkWorld.AgeDroplets | js/ink-world.js:419-425 | The droplets become the pool step of the old ones, and every survivor still has time to live. |
| InkWorld.AgeDroplet | js/ink-world.js:419-425 | One iteration of the step loop: the processed suffix becomes the pool step of one more droplet. The droplet is aged, and spliced out when its life is over. |
| InkWorld.VisitDroplet | js/ink-world.js:383-410 | One iteration of the draw loop: a spent droplet is spliced out, any other is drawn, and the drops stay those of the pool step drawn backwards. |
| InkWorld.InkWorld.Advance | js/ink-world.js:202-302 | Features are filtered and radii set. The ball ends inside the world. A qualifying long press latches the pointer, appends exactly one droplet and one strong ripple at the press point, and restarts the wobble. Otherwise the pointer is kept and the ripple pool is only aged and pruned. The wobble then decays by `exp(-dt * 2.6)`. |
| InkWorld.InkWorld.Glide | js/ink-world.js:272-302 | The ball becomes the bounced version of the ball moved by its velocity times `dt`. It keeps its radii and ends inside the world. |
| InkWorld.InkWorld.Step | js/ink-world.js:413-426 | After a frame the ball is inside the world and centred in the view. The stroke from the last stamp to the ball is in the buffer, and the droplets (with any new long-press droplet) have been aged and pruned, all still alive. The pointer, the ripple pool and the wobble end as in Advance: latched, with a new ripple and a restarted wobble exactly when the long press fires. |
| InkWorld.InkWorld.Trace | js/ink-world.js:417-425 | The camera follows, the stroke is stamped up to the ball, and the droplets age. |
| InkWorld.InkWorld.DrawDroplets | js/ink-world.js:382-411 | Spent droplets are spliced out, and the rest are drawn in reverse pool order. |
| InkWorld.InkWorld.Render | js/ink-world.js:428-435 | The frame is the common renderer's frame for the pruned droplets in reverse order, with the fixed background and ball colours. |

## Left out

- Microphone acquisition in `start` (`getUserMedia`, the audio context, the analyser's FFT and
  smoothing) is not modelled. `Audio.AudioEngine.Start` takes whether access was granted, and
  `Update` takes the analyser's spectrum as a parameter.
- Audio.AudioEngine.Update requires a 512-bin spectrum while on. The analyser always delivers its
  `frequencyBinCount`, and shorter data would make the low band read undefined bytes.
- The awaiting in `start` (an async function) is not modelled. The call completes in one step.
- `performance.now()`, `Math.random()`, `window.innerWidth/innerHeight` and
  `devicePixelRatio` are parameters (`now`, `u`/`draws`, `vw`/`vh`).
- `Math.hypot`, `pow`, `exp`, `sin` and `cos` are fields of a `Library` parameter. It is
  constrained only by the laws the proofs use (`Lawful`, `Pythagorean`): ranges, monotonicity,
  and `hypot(x,y)^2 = x^2 + y^2`. Reals stand in for IEEE doubles, and rounding is not modelled.
- Canvas pixels are not modelled: gradients, clipping to the world circle, compositing and
  `setTransform`. Stamps and draws are recorded as commands.
- `resizeCanvas` and `resize` (canvas size and device pixel ratio) are not modelled. `resize`
  is `resizeCanvas` followed by `ResetWorld`.
- The screen fill inside `resetWorld` (`js/ink-world.js:92-93`) is not modelled. The next
  `render` repaints the background anyway.
- `exportInk` (`toDataURL`) and `setPointerCapture` are browser calls and are not modelled.
- Renderer.DropDraws: a drop records position and colours only. Its animated radius, swell,
  stretch, rotation and alpha in both renderers are not modelled. Neither is the split droplet's
  `seed`/`baseRadius`.
- InkWorld.InkWorld.Render records the same position-and-colour drops, for the same reason.
- InkWorld.InkWorld.Advance states the ball's new velocity only through `Physics.ApplyForces`,
  `Physics.Integrate` and `Physics.BounceInCircle`, which it calls. Its own contract gives the
  containment, the radii, the smoothed features, the droplets, the pointer, the ripple pool and
  the wobble.
- InkWorld.InkWorld.Step states the ball's position through containment and the camera only,
  for the same reason.
- Physics.Bounced states the distance `R - r` only for `d > 0`. At `d == 0` the source divides
  by `d || 1`, which leaves the ball at the centre. The model computes this case, and only
  containment for `R >= r` is claimed there.
- The sumi profile's `inkBands` (`js/ink-world-modes.js:9-22`) are data that no modelled
  function reads, so they are not part of the profile.
- The CSS `--bg` writes in `createModeState` and `applyMode` (`js/ink-world-modes.js:180`,
  `js/ink-world-modes.js:190`) are not modelled. The background is kept as a field.
- Physics.Latch: the split physics calls an injected `triggerLongPress` hook
  (`js/ink-world-physics.js:10`, `js/ink-world-physics.js:56`). No file of the repository calls
  `createPhysics`, so nothing supplies that hook. The model plugs in the only `triggerLongPress`
  there is, the single-file world's (`js/ink-world.js:178-200`): a droplet, a strong ripple and a
  restarted wobble.
- Physics.ApplyForces uses the same instantiation of the `triggerLongPress` hook.
- Physics.Effects uses the same instantiation of the `triggerLongPress` hook.
- Physics.Accelerate uses the same instantiation of the `triggerLongPress` hook.
- Modes.ModeState.ApplyMode treats only the three profile names as known. In JavaScript,
  `!modeSettings[nextMode]` also lets through a name inherited from `Object.prototype`
  (`constructor`, `toString`, `__proto__`). The source then switches to that value and runs the
  reset; the model leaves such a name unmodelled and treats it as unknown.
- Modes.ModeState.constructor requires a known initial mode. With an unknown key, the source
  throws a TypeError when it reads `.background` (`js/ink-world-modes.js:177`). The throw is not
  modelled.
- `js/app.js` is not part of this model, and neither is the animation loop. It wires the audio
  engine to the page and to a world object with `setMode` and `getMode` (`js/app.js:70`,
  `js/app.js:191`), which the world of `js/ink-world.js` does not return. No file of the
  repository calls `createPhysics`, `createRenderer`, `createModeState` or
  `createResonanceSystem`; those modules are modelled on their own terms.

## Notes on the code

Behaviour of the code worth knowing:

- With the microphone off, `update` relaxes the features towards 0.12 (energy) and 0.1 (low,
  high) at rate 0.03. The engine has no mid band, centroid or attack, so its snapshot never
  carries them. Fed that snapshot, the resonance system never emits vibrato or attack bursts
  (`Resonance.EngineHasNoTimbre`).
- Smoothing in `update` uses 0.12 for low and high but 0.1 for energy.
- The double-tap anchor is the previous press: `lastTapAt` is set in `handlePointerDown`.
- `handlePointerUp` in the resonance system keeps the pointer id when the long press already
  fired: the early return only clears `down`.
- The ink world's `handlePointerUp` never clears the pointer id.
- `resetWorld` does not clear the pointer, the ripples, the droplets or the wobble.
- The single-file ink world returns no `setMode`/`getMode`. Its constants are fixed
  (`InkWorld.WorldPhysics`, `InkWorld.InkRadius`, `InkWorld.BallRadius`).
