# Scroll-driven airplane flythrough: the per-frame update

This project models the per-frame update of a scroll-controlled 3D flythrough
(the `useFrame` callback in `src/components/Experience.jsx`). Each frame turns the page's
scroll offset into animation state in a fixed order:

1. **Proximity pass.** Every text section is measured from the camera group where it
   stood before this frame's move. Sections closer than 42 units set the friction.
   They also pull the lateral camera rail towards `(1 - d/42) * cameraRailDist`,
   with one lerp per in-range section. When no section is in range, the rail is
   lerped back towards 0.
2. **Scroll smoothing.** The stored offset is lerped towards `max(0, offset)` by
   `delta * friction`, then clamped into [0, 1].
3. **Colour timeline cursor.** The timeline holds three 1-second colour transitions.
   It is seeked to the smoothed offset times the duration.
4. **Camera follow.** The camera group is lerped towards the curve point at rate
   `delta * 24`. The camera looks ahead at `min(s + 0.008, 1)`.
5. **Airplane bank.** The raw bank angle is turned by -π/2 and converted to degrees.
   It is then amplified by 2.4, clamped to ±35° and converted back to radians.

Numbers are exact reals. Lerp is `(1 - t) * a + t * b`.

Some quantities come from three.js or the browser. They are passed in as function
parameters:

- `curve: real -> Vec3` is the curve point at a parameter.
- `dist: (Vec3, Vec3) -> real` is the Euclidean distance.
- `rawBankAt: real -> real` is the raw atan2 bank angle at the smoothed offset.

The modules follow the components of the update:

- `FlightMath`: lerp, clamp and vectors.
- `Proximity`: friction and rail.
- `ScrollSmoother`: the smoothed offset.
- `ColorTimeline`: the timeline and its cursor.
- `Banking`: the bank angle.
- `CameraRig`: the whole frame. It holds the `FlightRig` class with the refs the
  callback mutates (`lastScroll`, the rail's x position, the camera group's
  position). Its `Tick` method is proved against the pure `Frame` function.

Notes on what the code does:

- The raw offset is only raised to 0 before the lerp (line 310). It is not capped at 1.
  The result is clamped afterwards (348-349).
- The rail is lerped once per in-range section (line 328), not once towards a single
  target.
- The airplane's tangent parameter `s + 0.02` (line 387) is not clamped to 1.
- There is no guard when a zero vector is normalised (374-376).
- Constants are hard-coded (lines 12-17), and nothing is validated at construction.

## Model

| member | source | states |
|---|---|---|
| FlightMath.LerpBetween | src/components/Experience.jsx:342-346 | a lerp with factor in [0,1] lands between its ends and no farther from the target than the start was |
| FlightMath.Clamp01 | src/components/Experience.jsx:348-349 | the min-then-max clamp yields a value in [0,1], keeps values already in [0,1], maps below 0 to 0 and above 1 to 1 |
| FlightMath.LerpVec | src/components/Experience.jsx:361 | Vector3.lerp with factor 0 keeps the vector and with factor 1 reaches the target |
| FlightMath.LerpVecToward | src/components/Experience.jsx:361 | with factor t in [0,1] every coordinate lands between the old one and the target's, and its distance to the target is exactly (1 - t) times the old one |
| FlightMath.LerpOvershoots | src/components/Experience.jsx:342-346 | with factor above 1 a lerp ends on the far side of its target, and farther from it than it started when the factor exceeds 2 |
| FlightMath.LerpFramesGap | src/components/Experience.jsx:342-346 | after n lerps by t towards a fixed target the distance left is exactly (1 - t)^n times the first one, for every t |
| FlightMath.LerpVecFramesGap | src/components/Experience.jsx:361 | after n vector lerps by t towards a fixed point the offset from it is exactly (1 - t)^n times the first one |
| Proximity.SectionFriction | src/components/Experience.jsx:322 | an in-range section's friction is at least the 0.1 floor and below 1, at least d/42, and exactly the floor when d <= 4.2 |
| Proximity.RailTarget | src/components/Experience.jsx:323-327 | for 0 <= d < 42 the rail target's magnitude is at most abs(cameraRailDist); it is cameraRailDist at distance 0 and 0 at distance 42 |
| Proximity.FrictionRange | src/components/Experience.jsx:311-331 | after the loop friction lies in [0.1, 1], and it is 1 exactly when no section is in range |
| Proximity.FrictionFromSomeSection | src/components/Experience.jsx:311-331 | friction is 1 with no section in range, otherwise it is max(d/42, 0.1) for some in-range section |
| Proximity.FrictionLastWins | src/components/Experience.jsx:316-331 | the last in-range section in array order sets the friction, whatever came before it |
| Proximity.LastNotNearest | src/components/Experience.jsx:316-331 | with sections at 10 and 30 the friction is 30/42, not the nearer section's |
| Proximity.RailScanIsLerpAll | src/components/Experience.jsx:316-331 | the loop's rail updates equal lerping towards the in-range targets one after another in array order |
| Proximity.InRangeTargetsNonEmpty | src/components/Experience.jsx:321-329 | there is at least one rail target exactly when some section is in range |
| Proximity.RailRule | src/components/Experience.jsx:316-338 | with no section in range the rail is lerped once towards 0 by delta; otherwise it is never reset and is lerped once per in-range section |
| Proximity.RailScanNoneInRange | src/components/Experience.jsx:312-338 | with no section in range the loop leaves the rail alone, so only the reset moves it |
| Proximity.RailStaysBounded | src/components/Experience.jsx:321-338 | with 0 <= delta <= 1, a rail bounded by the largest abs(cameraRailDist) stays bounded by it |
| Proximity.RailZeroDelta | src/components/Experience.jsx:328-336 | a frame with delta 0 leaves the rail unchanged |
| Proximity.RailLeavesBoundOnLongFrame | src/components/Experience.jsx:321-338 | example: with delta 3 and one section at distance 0 pulling to 1.5, the rail goes from 0 to 4.5, past every section's pull, so the delta <= 1 of RailStaysBounded is needed |
| ScrollSmoother.ScrollTarget | src/components/Experience.jsx:310 | a negative raw offset becomes 0, a non-negative one is kept, and nothing caps it at 1 |
| ScrollSmoother.Smooth | src/components/Experience.jsx:342-351 | the stored offset lies in [0,1] after every frame, whatever the previous value, raw offset, delta or friction |
| ScrollSmoother.SmoothMovesToward | src/components/Experience.jsx:342-351 | with delta*friction in [0,1] the stored offset moves towards the clamped target from either side and never past it |
| ScrollSmoother.OvershootIsClamped | src/components/Experience.jsx:342-349 | for every stored offset away from the target, a step delta*friction > 1 makes the lerp end on the far side of the target, and farther from it than it started when the step exceeds 2; the stored value is the clamp of that lerp |
| ScrollSmoother.OvershootExample | src/components/Experience.jsx:342-349 | example: from 0.5 towards 1 with step 3 the lerp reaches 2, and the clamp stores 1 |
| ScrollSmoother.SmoothLags | src/components/Experience.jsx:342-351 | with delta and friction in [0,1] and the stored offset below the target, the new offset stays between them and at least (1 - delta) of the distance is left |
| ScrollSmoother.SmoothAtRest | src/components/Experience.jsx:342-351 | a stored offset equal to an in-range target stays there, whatever delta and friction |
| ScrollSmoother.SmoothZeroDelta | src/components/Experience.jsx:342-351 | a frame with delta 0 keeps a stored offset already in [0,1] |
| ScrollSmoother.SmoothConverges | src/components/Experience.jsx:342-351 | with a fixed raw offset in [0,1] and step t in [0,1], the gap to the target after n frames is exactly (1-t)^n times the initial gap |
| ColorTimeline.Cursor | src/components/Experience.jsx:356 | for progress in [0,1] the cursor lies in [0, duration]; it is 0 at progress 0 and the duration at progress 1 |
| ColorTimeline.CursorMonotone | src/components/Experience.jsx:356 | a larger smoothed offset never seeks the timeline to an earlier time |
| ColorTimeline.DurationBounds | src/components/Experience.jsx:436-454 | tweens appended one after another give a non-negative total duration, and no tween starts after it |
| ColorTimeline.AuthoredTimeline | src/components/Experience.jsx:439-453 | the three authored tweens last 3 seconds and start at 0, 1 and 2; the cursor goes from 0 at progress 0 to 3 at progress 1 |
| Banking.DegreesRoundTrip | src/components/Experience.jsx:400-415 | converting radians to degrees and back, or the reverse, gives the angle back |
| Banking.ClampBank | src/components/Experience.jsx:404-410 | the clamped bank lies in [-35,35], keeps values already there (0 included), keeps the sign, never grows in magnitude, and equals max(-35, min(35, x)) |
| Banking.BankDegrees | src/components/Experience.jsx:397-410 | the bank in degrees lies in [-35,35] for every raw angle |
| Banking.BankAngleBounded | src/components/Experience.jsx:397-415 | the bank in radians never exceeds 35 degrees' worth in magnitude, and it converts back to the clamped degrees |
| Banking.StraightFlightIsLevel | src/components/Experience.jsx:397-415 | a raw angle of a quarter turn (tangent straight ahead) gives a bank of 0 |
| Banking.BankAmplifies | src/components/Experience.jsx:398-415 | below the clamp the bank is exactly 2.4 times the turned raw angle |
| CameraRig.LookAheadParam | src/components/Experience.jsx:365-367 | the camera's look-ahead parameter is at most 1, in [0,1] for a non-negative offset, never behind the offset and at most 0.008 ahead |
| CameraRig.AirplaneTangentParamNotClamped | src/components/Experience.jsx:387 | at offset 1 the airplane's tangent parameter exceeds 1, while the camera's look-ahead is clamped to 1 |
| CameraRig.Frame | src/components/Experience.jsx:308-361 | one frame maps the previous state to one whose stored offset lies in [0,1] |
| CameraRig.FrameZeroDelta | src/components/Experience.jsx:328-361 | with delta 0 and the stored offset in [0,1], a frame leaves the stored offset, rail and camera group position unchanged |
| CameraRig.FrameRailBounded | src/components/Experience.jsx:316-338 | with 0 <= delta <= 1 and non-negative distances, the rail stays within the largest abs(cameraRailDist) |
| CameraRig.AuthoredRailDistances | src/components/Experience.jsx:45-90 | every authored section's cameraRailDist is at most 1.5 in magnitude |
| CameraRig.AuthoredRailStaysBounded | src/components/Experience.jsx:316-338 | with the authored sections, a rail starting at 0 stays within 1.5 either way after any number of frames of at most a second |
| CameraRig.FrameCameraFollows | src/components/Experience.jsx:355-361 | with 24*delta in [0,1], each coordinate of the camera group lands between its old value and the curve point of the new offset, with the distance scaled by exactly 1 - 24*delta; the factor is never clamped |
| CameraRig.FrameCameraOvershoots | src/components/Experience.jsx:361 | with 24*delta > 1 (a frame longer than 1/24 s) every coordinate away from the curve point ends on its far side, and farther from it than before when 24*delta > 2 (a frame longer than 1/12 s) |
| CameraRig.CameraOvershootExample | src/components/Experience.jsx:361 | example: at delta 0.1 with the point 1 away the camera group ends 1.4 past it after one frame and 1.96 on the other side after two |
| CameraRig.FramesAtRest | src/components/Experience.jsx:342-361 | once the stored offset equals an in-range raw offset it stays there over n frames, and the camera group makes n lerps by 24*delta towards that offset's curve point |
| CameraRig.CameraConvergesAtRest | src/components/Experience.jsx:342-361 | with the scroll at rest, the camera group's offset from the curve point after n frames is exactly (1 - 24*delta)^n times the first one |
| CameraRig.CameraSettlesAt60Fps | src/components/Experience.jsx:342-361 | with the scroll at rest and frames of 0.016 s, after 15 frames or more every coordinate is within 0.001 times its first distance from the curve point |
| CameraRig.ScrollLag | src/components/Experience.jsx:311-351 | with frames of at most a second and a raw offset in [0,1] ahead of the stored one, the stored offset stays behind it, and the distance left after n frames is at least the first one shrunk n times by 1 - delta, whatever the sections |
| CameraRig.ScrollStillBehindAfter300Frames | src/components/Experience.jsx:310-351 | example: scrolling from 0 to raw offset 0.5 in frames of 0.016 s, the stored offset is still below 0.499 after up to 300 frames (5 seconds) |
| CameraRig.FlightRig.constructor | src/components/Experience.jsx:302-305 | the stored offset starts at 0 and the rail and camera groups at the origin |
| CameraRig.FlightRig.ScanSections | src/components/Experience.jsx:311-331 | the forEach pass over the sections yields the friction, the rail after its lerps, and the reset flag |
| CameraRig.FlightRig.Tick | src/components/Experience.jsx:308-415 | the new offset, rail and camera position are Frame of the old ones, measured from the old camera position; it returns the cursor, the look-ahead parameter and the bank angle of the new offset |

## Left out

- Curve evaluation is left out: CatmullRomCurve3 `getPoint`, `getTangent` and `getPoints` (lines 37-43, 291-293, 355, 365, 387) are three.js code. The curve is a function parameter.
- `Vector3.distanceTo` (317-319) uses a square root. It is a function parameter, assumed non-negative only where a lemma needs it.
- Camera orientation is left out: `getWorldDirection`, the normalised look direction, its lerp and `Group.lookAt` (370-384). These are trigonometry and library calls.
- The airplane orientation is left out: `applyAxisAngle`, `Math.atan2`, the Euler/quaternion construction and the `slerp` at rate `delta * 2` (389-397, 417-425). Only the bank arithmetic and clamp are modelled. `Tick` returns the target bank angle instead of turning a quaternion.
- gsap colour interpolation (436-456) is a foreign library. Only the timeline's durations and the cursor arithmetic are modelled.
- The colour values (`INITIAL_COLORS` and the colours each tween ends on, lines 431-453) are kept as data only. Nothing in the model reads them, because the gsap interpolation between them is not modelled.
- IEEE float behaviour (rounding, NaN, infinities) is left out. Math.PI is the real 3.141592653589793.
- Scene markup is left out: clouds, extruded line, lights, text sections' rendering, the HTML overlay, the canvas and ScrollControls setup, the router and the play context.
- CameraRig.FlightRig.ScanSections: the rail is lerped on a local and written back after the loop, whereas the source updates the rail group in place. Nothing reads the rail during the loop, so the sequence of values is the same.
- ScrollSmoother.SmoothConverges: stated for a fixed friction and a raw offset in [0,1]. In the running system, friction changes with proximity from frame to frame.
