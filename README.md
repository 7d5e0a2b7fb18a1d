# Projectile playback engine

A Dafny model of the simulation engine of a browser page that fires a
projectile from a cannon and animates its flight (`script.js`). The model
has three parts:

- the closed-form kinematics that the page evaluates every frame;
- the playback state machine behind the fire, pause, play and reset buttons
  and the animation frame;
- the mapping from metres to canvas pixels, and the clamping done by the
  arrow buttons beside the sliders.

Modules, leaves first:

- `Kinematics` (kinematics.dfy): `TrajectoryPoint`, `TimeOfFlight`,
  `Distance` and `MaxHeight` over `real`, with lemmas. The proved facts: the
  projectile is back at launch height at the time of flight, and there it is
  at the reported distance; no height exceeds the maximum height and the apex
  reaches it; the projectile is above ground exactly until the time of flight.
- `Display` (display.dfy): the metre-to-pixel mapping for the fixed
  1000 × 600 canvas that shows 30 m by 15 m, and its inverse.
- `Controls` (controls.dfy): the arrow-button clamps and the four configured
  sliders (mass, gravity, angle, speed).
- `Playback` (playback.dfy): the playback globals as a `State` value and
  each command as a function of it. Lemmas cover the effect of one frame,
  the invariant the commands keep, "landing happens once", pause followed by
  play, and the fact that a flight with fixed parameters draws exactly the
  closed-form samples.
- `Controller` (controller.dfy): class `Simulation`, whose fields are the
  globals, with one method per command. Each method changes the fields in
  place, keeps `Valid()`, and leaves the fields equal to the matching
  `Playback` function of the old ones. The method `FirePausePlay` there is a
  usage example only: fire, pause, a frame while paused, then play, with
  what the class contracts let a caller conclude about the drawn points.

Inputs that the page derives through foreign calls are given as values
instead. These are the velocity components v0x and v0y (from `Math.cos` and
`Math.sin` of the angle) and the cannon tip (the muzzle position in pixels,
also trigonometric). They are carried in a `Launch` value and a `Point`, and
`Simulation.Adjust` replaces them between commands, as the slider handlers
do, also in mid-flight.

How the code drives the playback state:

- Fire runs the first animation frame at once (script.js:198). After an
  accepted fire the time is 0.05 s and one point has been drawn, unless
  that first frame already lands.
- Pause sets `isPaused` in every state, including before a flight and after
  a landing (script.js:202-204).
- Play acts whenever `isAnimating` holds, whether paused or not. It clears
  the pause and runs a frame at once (script.js:206-211).
- There is no phase variable. Idle, running, paused and landed are
  combinations of `isAnimating`, `isPaused` and `landingPoint`.
- Landing is detected by time (`time > calculateTimeOfFlight()`).
  `Kinematics.AboveGroundUntilLanding` proves that, for launches that do not
  point downwards, this is the same as the projectile being below ground.

## Model

| member | source | states |
|---|---|---|
| `Kinematics.TrajectoryPoint` | script.js:24-36 | at t = 0 the projectile is at the origin (0, 0) |
| `Kinematics.TimeOfFlight` | script.js:38-44 | the time of flight 2·v0y/g is non-negative exactly when v0y is |
| `Kinematics.Distance` | script.js:46-53 | the range v0x·T is non-negative for a launch with non-negative velocity components |
| `Kinematics.MaxHeight` | script.js:55-61 | the peak height v0y²/(2g) is never negative |
| `Kinematics.LandsAtTimeOfFlight` | script.js:24-53 | at t = calculateTimeOfFlight() the height is 0 and x equals calculateDistance() |
| `Kinematics.HeightGap` | script.js:24-61 | calculateMaxHeight() minus the height at t is (g/2)(t − v0y/g)² for every t |
| `Kinematics.HeightBounded` | script.js:24-61 | for every t the height is at most calculateMaxHeight(), and at t = v0y/g it equals it |
| `Kinematics.AboveGroundUntilLanding` | script.js:151-155 | for v0y ≥ 0 and t ≥ 0, the height is ≥ 0 iff t ≤ time of flight, so the frame's time test is the ground-crossing test |
| `Display.ToPixel` | script.js:158-159 | the physical origin is drawn at the cannon tip |
| `Display.ToPhysical` | script.js:158-159 | the cannon tip is read back as the physical origin |
| `Display.PhysicalOfPixel` | script.js:158-159 | mapping a physical point to pixels and back gives the point again |
| `Display.PixelOfPhysical` | script.js:158-159 | mapping a pixel to metres and back gives the pixel again |
| `Display.ToPixelOrder` | script.js:158-159 | pixel x grows with physical x; pixel y falls as height rises; a point at or above ground is drawn at or above the tip |
| `Controls.Decrease` | script.js:264 | the result is max(v − step, min): at least both v − step and min, and equal to one of them |
| `Controls.Increase` | script.js:270 | the result is min(v + step, max): at most both v + step and max, and equal to one of them |
| `Controls.ConfiguredArrowsWellFormed` | script.js:275-278 | the four configured arrow pairs have a positive step and min ≤ max |
| `Controls.ArrowsStayInRange` | script.js:261-273 | for v in [min, max], decrease stays in [min, v] and increase stays in [v, max] |
| `Controls.ArrowsUndoEachOther` | script.js:261-273 | away from the bounds, a decrease undoes an increase and an increase undoes a decrease |
| `Controls.PressIncreaseBounded` | script.js:268-272 | n successive increase presses from an in-range v stay in [v, max]; the result is exactly v + n·step when that is at most max, and max otherwise |
| `Playback.Animate` | script.js:146-183 | a frame while paused or not animating changes nothing; maxHeight never decreases; the trajectory grows by at most one point at its end |
| `Playback.Fire` | script.js:185-200 | fire while animating changes nothing; otherwise time becomes 0.05, the pause is cleared and at most one point is drawn |
| `Playback.Pause` | script.js:202-204 | pause sets isPaused and nothing else, in every state |
| `Playback.Play` | script.js:206-211 | play when not animating changes nothing; during a flight it clears the pause and runs one frame, so time grows by 0.05 even when that frame lands |
| `Playback.Reset` | script.js:213-229 | reset from any state clears animating, paused, landing point, time, maxHeight and trajectory, and puts the projectile at the tip |
| `Playback.InitialConsistent` | script.js:6-14 | the initial state and the fire button's armed state keep the playback invariant |
| `Playback.AnimateConsistent` | script.js:146-183 | a frame keeps the invariant: landing ends the flight, time counts one frame per drawn point plus the landing frame, idle has nothing recorded, maxHeight ≥ 0 |
| `Playback.CommandsConsistent` | script.js:185-229 | fire, pause, play and reset keep the same invariant |
| `Playback.FlightFrame` | script.js:149-167 | a running frame within the time of flight adds exactly dt to time, appends exactly the drawn point and keeps the earlier ones, and sets maxHeight to max(old, y) |
| `Playback.LandingFrame` | script.js:173-178 | a running frame past the time of flight stops animating, lands at (calculateDistance(), 0), adds dt to time and leaves trajectory, maxHeight, isPaused and the projectile unchanged |
| `Playback.StoppedStaysStopped` | script.js:146-147 | once not animating (landed or reset), any number of frames changes nothing, so the landing happens once |
| `Playback.PausedStaysPut` | script.js:146-147 | while paused, any number of frames changes nothing |
| `Playback.PauseThenPlay` | script.js:202-211 | pause, any number of frames, then play gives the same state as the next uninterrupted frame |
| `Playback.FramesOnlyExtend` | script.js:149-167 | across n frames maxHeight never decreases and the trajectory only grows at its end, by at most n points |
| `Playback.FireOnCourse` | script.js:185-198 | when the first frame is within the time of flight, fire from a stopped state starts a flight that has drawn exactly the first closed-form sample |
| `Playback.FireLandsAtOnce` | script.js:185-198 | when even the first frame is past the time of flight, fire lands at once with nothing drawn and maxHeight 0 |
| `Playback.AnimateOnCourse` | script.js:149-178 | on course, a frame either draws the next closed-form sample (time k·dt) and keeps maxHeight the running maximum, or lands with the trajectory unchanged |
| `Playback.PeakBelowMaxHeight` | script.js:163-167 | the running maximum of sampled heights lies in [0, calculateMaxHeight()] |
| `Playback.OnCourseAboveGround` | script.js:154-161 | on course, the shown maxHeight is at most calculateMaxHeight() and every drawn point is at or above the tip's pixel row |
| `Playback.AboveGroundBeforeLanding` | script.js:154-155 | a point sampled no later than the time of flight is not below the ground |
| `Controller.Simulation.constructor` | script.js:6-14 | the page-load state: nothing animating, nothing recorded, projectile at the tip |
| `Controller.Simulation.Adjust` | script.js:236-259 | a slider change replaces the launch parameters and the tip and leaves every playback global unchanged |
| `Controller.Simulation.Tick` | script.js:146-183 | animate() in place: the new globals are Playback.Animate of the old ones, and the invariant is kept |
| `Controller.Simulation.Fire` | script.js:185-200 | the fire handler in place: the new globals are Playback.Fire of the old ones |
| `Controller.Simulation.Pause` | script.js:202-204 | the pause handler in place: the new globals are Playback.Pause of the old ones |
| `Controller.Simulation.Play` | script.js:206-211 | the play handler in place: the new globals are Playback.Play of the old ones |
| `Controller.Simulation.Reset` | script.js:213-229 | the reset handler in place: the new globals are Playback.Reset of the tip |

## Left out

- Canvas drawing: `drawScene` and the canvas setup (script.js:1-4, 73-144), as pure rendering. Its use of the undefined `simulation.targetDistance` (script.js:111) affects no state.
- DOM reads and writes: `getElementById`, `textContent`, `toFixed`, `updateSliderValue`, `dispatchEvent` and the parsing of slider values. The slider handlers are modelled by `Simulation.Adjust` as plain assignments of the new parameters.
- `requestAnimationFrame` and `cancelAnimationFrame` (script.js:172, 220-221), as host scheduling. Each `Tick` is one frame callback. Pressing play during a flight starts a second frame chain (script.js:209); the model runs the extra frame that play calls directly, but not the doubled chain.
- `Math.cos`, `Math.sin`, `Math.PI` and `updateCannonTip` (script.js:25-27, 63-71), as foreign calls. v0x, v0y and the cannon tip are inputs, so the model does not relate them to the speed and angle sliders.
- IEEE-754 arithmetic, because all quantities are `real`. In particular, the model's time is exactly k·0.05, while the page accumulates 0.05 in binary floating point, so a frame very near the time of flight may fall on the other side of the test.
- Playback.Animate, Playback.Fire, Playback.Play and Controller.Simulation: these require gravity > 0. The gravity slider allows 0, which makes the time of flight Infinity (the flight never lands) or NaN (it lands at once, at distance NaN). That behaviour is not reproduced.
- The mass slider and its arrows change `simulation.mass`, which the shown kinematics never reads. The mass value is not modelled; its arrow configuration is.
- The browser's own clamping of a range input's value to its min, max and step is not part of this model. Only the `Math.max`/`Math.min` in the arrow handlers is.
- Drag or air-resistance integration: no such code exists in `script.js`.
