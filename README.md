# supersplat-viewer camera core, in Dafny

This project models the camera-animation and mode-control core of the supersplat viewer bundle
(`src/modules/supersplat-viewer/index.js`) and proves properties of it:

- **`CubicSpline`**, the Hermite spline the camera animations run on. Its knot layout
  `[in-tangent, value, out-tangent]` is built by `calcKnots`. `evaluate` clamps at the ends and
  otherwise scans for the segment and blends it. `fromPointsLooping` pads the keyframes so that a
  loop closes.
- **The math helpers** `easeOut`, `mod`, `nearlyEquals` and `vecToAngles`.
- **`AnimCursor`**, the playhead with `none`, `repeat` and `pingpong` loop modes.
- **`AnimState`**, which advances the cursor, samples the spline, and commits position and target
  only when every sampled channel is finite. This part also covers `fromTrack`.
- **`CameraManager`**, with `AnimController` folded in. It covers the starting mode, the
  bookkeeping of every mode change, the per-frame transition timer and pause handling, and the
  `inputEvent`, `scrubAnim`, `pick` and `annotation.activate` handlers. A mode assignment goes
  through the change guard of `observe`.
- **`InputController`'s discrete logic**: the touch joystick, double-tap detection, the key and
  canvas commands, `inputMode`, the held-key accumulators, the automatic switch to fly mode, and
  the count, order and factors of the move and rotate deltas appended each frame.
- **The smaller pieces**:
  - the settings migration `importSettings` / `migrateV1` / `migrateAnimTrackV2` / `migrateV2`;
  - the `observe` proxy;
  - XR snap-turn hysteresis and the ground-plane ray hit;
  - the near/far clip fit;
  - the load-progress watermark.

Modelling conventions:

- **Numbers.** JavaScript numbers are `real`. Where NaN or infinity can arise, they are
  `JsNumber.Num = Finite(v) | NonFinite`. Inside the spline this happens on reads past an array
  and on division by a zero time gap. `%` is the truncated remainder, written out.
- **`2 ** x`** is a function parameter. Only the facts `easeOut` relies on are assumed of it:
  2^0 = 1, 2^-10 = 1/1024, and it is positive and increasing.
- **Opaque engine services.** Camera poses, `Camera.look`, the pose part of `Camera.lerp`, and
  the engine's orbit and fly integrators are opaque values and functions (`CameraModel.Env`). The
  orbit and fly controllers are represented by the log of what they were told: `attach` or an
  update with the frame's deltas.
- **Stateful parts are classes.** `AnimCursor`, `AnimState`, `CubicSpline`, `CameraManager`,
  `InputController`, the `observe` proxy, the XR rig and the progress listener are classes whose
  methods update fields in place. Each method is proved against a pure function of the old state,
  and the lemmas are stated about those functions.
- **The camera manager's state** is read as a `Manager` value (`Snapshot()`). Each handler is
  proved equal to a transition function on that value.

Two behaviours of the code are modelled as written and stated as lemmas:

- The `pingpong` value getter returns `duration - cursor` on the second half of a cycle. That is
  negative (`Cursor.PingPongValueNegative`, `Cursor.PingPongExample`).
- The progress callback's values never decrease but can repeat. `Math.trunc` of a strictly rising
  watermark can report the same percentage twice (`Viewer.SamePercentTwice`), so the reports are
  not strictly increasing.

## Model

| member | source | states |
|---|---|---|
| MathUtil.EaseOut | src/modules/supersplat-viewer/index.js:1213 | easeOut(0) = 0, easeOut(1) = 1, and [0, 1] maps into [0, 1] |
| MathUtil.EaseOutMonotone | src/modules/supersplat-viewer/index.js:1213 | a later blend time never gives a smaller weight |
| MathUtil.ModIsFlooredRemainder | src/modules/supersplat-viewer/index.js:1221 | for m > 0, mod(n, m) lies in [0, m) and n - mod(n, m) = m * floor(n / m) |
| MathUtil.Mod | src/modules/supersplat-viewer/index.js:1221 | mod(n, m) = ((n % m) + m) % m with the truncating `%` |
| MathUtil.ModUnique | src/modules/supersplat-viewer/index.js:1221 | mod(n, m) is the only r in [0, m) that differs from n by a whole multiple of m |
| MathUtil.ModAdd | src/modules/supersplat-viewer/index.js:1221 | reducing before an addition does not change the reduced sum |
| MathUtil.AnyFarMeans | src/modules/supersplat-viewer/index.js:1222-1224 | the `some` scan finds an index k (within both arrays) with abs(a[k] - b[k]) >= epsilon exactly when one exists |
| MathUtil.NearlyEqualsMeans | src/modules/supersplat-viewer/index.js:1222-1224 | nearlyEquals holds iff every index of a that b also has differs by less than epsilon; indices past b's end never count (undefined gives NaN) |
| MathUtil.NearlyEquals | src/modules/supersplat-viewer/index.js:1222-1224 | no index of a has a value at least epsilon away from b's value there |
| MathUtil.NearlyEqualsReflexive | src/modules/supersplat-viewer/index.js:1223 | every array is nearly equal to itself for any epsilon > 0 |
| MathUtil.VecToAngles | src/modules/supersplat-viewer/index.js:1225-1231 | writes pitch and yaw from asin and atan2 (both given as functions), sets roll to 0, and returns the same object it wrote into |
| MathUtil.MutableVec3.constructor | src/modules/supersplat-viewer/index.js:1228-1230 | the vector the angles are written into holds the given coordinates |
| Spline.CalcKnots | src/modules/supersplat-viewer/index.js:1150-1177 | the nested loops fill exactly the knot sequence `KnotsOf(times, points, smoothness)`: n * dim * 3 entries, value, in-tangent and out-tangent at slot (i * dim + j) * 3 + 0..2 |
| Spline.KnotsOfAt | src/modules/supersplat-viewer/index.js:1157-1174 | the knot at control point i, channel j, slot k of `KnotsOf` is that entry's tangent or value formula |
| Spline.KnotsOf | src/modules/supersplat-viewer/index.js:1150-1177 | the knot array: three entries per channel per control point, in storage order |
| Spline.KnotEntry | src/modules/supersplat-viewer/index.js:1157-1174 | the in-tangent and out-tangent are the slope scaled to the adjacent segment and by smoothness, the value is the control point |
| Spline.ChannelEntries | src/modules/supersplat-viewer/index.js:1157-1174 | the three entries computed for one point and channel are the in-tangent, the (finite) value and the out-tangent of the specification |
| Spline.FillPoints | src/modules/supersplat-viewer/index.js:1154-1176 | the outer loop leaves the array equal to the knots of all points |
| Spline.FillPoint | src/modules/supersplat-viewer/index.js:1155-1175 | one outer iteration extends the filled prefix by one control point's knots |
| Spline.FillChannels | src/modules/supersplat-viewer/index.js:1156-1175 | the inner loop appends every channel's three knots for one control point |
| Spline.WriteChannel | src/modules/supersplat-viewer/index.js:1172-1174 | one inner iteration appends one channel's three knots and keeps the prefix |
| Spline.PointsLayout | src/modules/supersplat-viewer/index.js:1151-1152 | points hold n * dim entries, with dim = points.length / n |
| Spline.KnotEntryFinite | src/modules/supersplat-viewer/index.js:1160-1174 | with at least two strictly increasing times every knot entry is finite, and with smoothness 0 both tangents are 0 |
| Spline.SingleKeyframeTangents | src/modules/supersplat-viewer/index.js:1160-1171 | a single control point gets NaN tangents, because its reads fall outside the arrays |
| Spline.BasisAtZero | src/modules/supersplat-viewer/index.js:1128-1143 | at t = 0 the Hermite basis keeps only the start value |
| Spline.BasisAtOne | src/modules/supersplat-viewer/index.js:1128-1143 | at t = 1 the Hermite basis keeps only the end value |
| Spline.BasisPartitionOfUnity | src/modules/supersplat-viewer/index.js:1140-1142 | the two value weights always sum to 1 |
| Spline.HermiteFinite | src/modules/supersplat-viewer/index.js:1139-1143 | a blended channel is finite iff its four inputs are |
| Spline.HermiteAtStart | src/modules/supersplat-viewer/index.js:1126-1145 | evaluateSegment at t = 0 gives the start knot's value |
| Spline.HermiteAtEnd | src/modules/supersplat-viewer/index.js:1126-1145 | evaluateSegment at t = 1 gives the end knot's value |
| Spline.HalfwayExample | src/modules/supersplat-viewer/index.js:1101-1181 | the spline fromPoints builds with smoothness 0 over times [0, 1] and one channel with points [0, 1] evaluates to [0.5] at time 0.5 |
| Spline.BlendOfZeroTangents | src/modules/supersplat-viewer/index.js:1139-1143 | with zero tangents a segment is the linear blend of its end values by weight h01 |
| Spline.EndWeightBounds | src/modules/supersplat-viewer/index.js:1142 | on [0, 1] the end-value weight stays in [0, 1] |
| Spline.CubicSpline.constructor | src/modules/supersplat-viewer/index.js:1096-1100 | stores times and knots; dim is knots.length / times.length / 3 |
| Spline.CubicSpline.ScanSegment | src/modules/supersplat-viewer/index.js:1111-1114 | the while scan ends at a segment with times[seg] <= time < times[seg + 1] |
| Spline.CubicSpline.SegmentFound | src/modules/supersplat-viewer/index.js:1110-1115 | inside the control times the normalised time lies in [0, 1), and with strictly increasing times the segment is the only one containing the time |
| Spline.CubicSpline.SegmentTimeAtStart | src/modules/supersplat-viewer/index.js:1115 | a segment's own start time is normalised time 0 |
| Spline.CubicSpline.SampleAtControlTime | src/modules/supersplat-viewer/index.js:1101-1145 | with strictly increasing times and finite knots the curve passes through each control point at its time |
| Spline.CubicSpline.SampleInside | src/modules/supersplat-viewer/index.js:1110-1116 | strictly inside the control times the sample is the found segment's polynomial |
| Spline.CubicSpline.SegmentBlend | src/modules/supersplat-viewer/index.js:1133-1144 | with finite knots and zero tangents each channel is a linear blend of the segment's end values |
| Spline.CubicSpline.SegmentKnots | src/modules/supersplat-viewer/index.js:1132-1138 | evaluateSegment's index arithmetic reads p0, m0, m1 and p1 of the channel |
| Spline.CubicSpline.GetKnot | src/modules/supersplat-viewer/index.js:1118-1124 | writes control point `index`'s values into result[0..dim) and leaves the rest of result alone |
| Spline.CubicSpline.EvaluateSegment | src/modules/supersplat-viewer/index.js:1126-1145 | writes the segment's Hermite blend into result[0..dim) and leaves the rest alone |
| Spline.CubicSpline.FindSegment | src/modules/supersplat-viewer/index.js:1111-1114 | the loop returns the scanned segment |
| Spline.CubicSpline.Evaluate | src/modules/supersplat-viewer/index.js:1101-1117 | writes exactly result[0..dim) with the sample: the first knot at or before times[0], the last knot at or after times[last], else the scanned segment's blend |
| Spline.CubicSpline.Sample | src/modules/supersplat-viewer/index.js:1101-1117 | the sample at a time: the first control point's values at or before the first time, the last one's from the last time on, else the Hermite blend of the first segment whose end lies past the time |
| Spline.CubicSpline.EvaluateInside | src/modules/supersplat-viewer/index.js:1110-1116 | the interior branch of evaluate writes the sample |
| Spline.FromPoints | src/modules/supersplat-viewer/index.js:1179-1181 | a spline over the given times with the calcKnots knots |
| Spline.FromPointsKnots | src/modules/supersplat-viewer/index.js:1150-1181 | the built spline's knots are finite, with zero tangents when smoothness is 0, and its knot values are the points |
| Spline.FromPointsInterpolates | src/modules/supersplat-viewer/index.js:1101-1181 | a spline from strictly increasing times passes through every point at its time |
| Spline.ZeroSmoothnessBlend | src/modules/supersplat-viewer/index.js:1126-1181 | with smoothness 0 each channel between two keyframes moves from the earlier value toward the later by a fraction in [0, 1]: no overshoot |
| Spline.SingleKeyframeSpline | src/modules/supersplat-viewer/index.js:1101-1109 | with one keyframe the NaN tangents are never read: every time samples that keyframe |
| Spline.FromPointsLooping | src/modules/supersplat-viewer/index.js:1183-1197 | with n >= 2 times, the control times are [t[n-2]-L, t[n-1]-L] ++ times ++ [L+t[0], L+t[1]] and the points are wrapped the same way; with fewer it is fromPoints with smoothness 1 |
| Spline.LoopTimesIncreasing | src/modules/supersplat-viewer/index.js:1188-1194 | padding strictly increasing times, with a loop longer than their span, keeps them strictly increasing |
| Spline.LoopPointsAt | src/modules/supersplat-viewer/index.js:1189-1195 | the padded points hold every original point two places later, and the first point again after the last |
| Spline.LoopPointAt | src/modules/supersplat-viewer/index.js:1189-1195 | the padded points read every original entry two control points later, and the first two points again after the last |
| Spline.LoopLayout | src/modules/supersplat-viewer/index.js:1187-1195 | the padded arrays keep dim channels per control point |
| Spline.LoopingSplineSeam | src/modules/supersplat-viewer/index.js:1150-1197 | a looping spline passes through every keyframe, and one loop length after the first keyframe it is back at the first keyframe; the control points at the first keyframe and one loop later carry the same value and the same in- and out-tangents in every channel, so the seam is smooth, not only closed |
| Spline.SeamKnots | src/modules/supersplat-viewer/index.js:1150-1197 | the padded control points 2 and n + 2 sit at t[0] and length + t[0] and are equal entry by entry in every channel |
| Spline.SeamKnotEntry | src/modules/supersplat-viewer/index.js:1157-1174 | calcKnots over the padded times and points computes the same tangent slope, the same in- and out-scales and the same value at padded indices 2 and n + 2 |
| Spline.SeamFromPadding | src/modules/supersplat-viewer/index.js:1183-1197 | a spline through every padded point passes through each original keyframe and has the same value at length + t[0] as at t[0] |
| Cursor.AnimCursor.constructor | src/modules/supersplat-viewer/index.js:1239-1241 | exactly a reset: the given duration and loop mode, timer and cursor 0 |
| Cursor.AnimCursor.Reset | src/modules/supersplat-viewer/index.js:1261-1266 | sets duration and loop mode and zeroes timer and cursor |
| Cursor.AnimCursor.Update | src/modules/supersplat-viewer/index.js:1242-1260 | the timer always gains dt, unwrapped; the cursor advances by the loop mode's rule |
| Cursor.Advance | src/modules/supersplat-viewer/index.js:1246-1259 | the cursor after dt: past the end it stops at the duration, wraps by the duration in repeat and by twice the duration in pingpong, with the truncating `%` |
| Cursor.AnimCursor.SetValue | src/modules/supersplat-viewer/index.js:1267-1269 | stores mod(value, duration); for a positive duration the cursor lies in [0, duration) and reads back unchanged |
| Cursor.NoLoopClamps | src/modules/supersplat-viewer/index.js:1247-1251 | in `none` mode with dt >= 0 the cursor stays in [0, duration], equals duration once reached, and is cursor + dt before that |
| Cursor.RepeatIsMod | src/modules/supersplat-viewer/index.js:1252-1254 | in `repeat` mode the cursor becomes mod(cursor + dt, duration), in [0, duration) |
| Cursor.PingPongIsMod | src/modules/supersplat-viewer/index.js:1255-1257 | in `pingpong` mode one step lands on (cursor + dt) mod 2 * duration, so below 2 * duration the cursor simply advances |
| Cursor.PingPongAccumulates | src/modules/supersplat-viewer/index.js:1242-1260 | in `pingpong` mode any run of non-negative steps from a cursor in [0, 2 * duration) lands on (cursor + total) mod 2 * duration: wrapping step by step loses no time |
| Cursor.PingPongBounds | src/modules/supersplat-viewer/index.js:1255-1257 | in `pingpong` mode the cursor stays in [0, 2 * duration) |
| Cursor.WrapIsMod | src/modules/supersplat-viewer/index.js:1246-1254 | for a non-negative cursor the in-place `%=` applied only past the duration equals mod(cursor, duration), in [0, duration) |
| Cursor.RepeatAccumulates | src/modules/supersplat-viewer/index.js:1242-1260 | over any run of non-negative steps a repeating cursor is mod(start + total, duration) |
| Cursor.RepeatExample | src/modules/supersplat-viewer/index.js:1252-1254 | duration 10 and steps totalling 12 give 2 |
| Cursor.PingPongValueNegative | src/modules/supersplat-viewer/index.js:1270-1272 | past the midpoint of a ping-pong cycle the value getter returns duration - cursor, which is negative, not 2 * duration - cursor |
| Cursor.PingPongExample | src/modules/supersplat-viewer/index.js:1255-1272 | duration 10 after 15 time units reads -5 |
| Cursor.SetterReadsBack | src/modules/supersplat-viewer/index.js:1267-1272 | after the setter the getter returns the stored cursor, which lies in [0, duration) |
| Cursor.Displayed | src/modules/supersplat-viewer/index.js:1270-1272 | the value getter: the cursor up to the duration, duration - cursor beyond it |
| Animation.TrackPointsLayout | src/modules/supersplat-viewer/index.js:1306-1310 | the interleaved points hold six channels per keyframe: keyframe k's position then its target |
| Animation.TrackLayout | src/modules/supersplat-viewer/index.js:1301-1310 | a track's points divide into exactly six channels per keyframe, in keyframe order |
| Animation.InterleavePoints | src/modules/supersplat-viewer/index.js:1306-1310 | the push loop builds exactly the interleaved position/target points; fov keyframes are ignored |
| Animation.LoopLengthExtra | src/modules/supersplat-viewer/index.js:1311-1312 | the loop is (duration + 1) * frameRate when duration equals the last keyframe time over the frame rate, else duration * frameRate |
| Animation.FromTrack | src/modules/supersplat-viewer/index.js:1301-1314 | builds the looping spline from the interleaved points, and passes duration, loop mode and frame rate through with the cursor reset |
| Animation.TrackKeyframes | src/modules/supersplat-viewer/index.js:1301-1314 | the track's spline passes through every keyframe's position and target at its time |
| Animation.TrackLoopCloses | src/modules/supersplat-viewer/index.js:1311-1312 | one loop length after the first keyframe the track's spline is back at the first keyframe |
| Animation.LoopingTrackSpline | src/modules/supersplat-viewer/index.js:1301-1314 | a track with two or more keyframes builds the looping spline over the padded times and interleaved points, six channels wide |
| Animation.SeamOfTrack | src/modules/supersplat-viewer/index.js:1311-1313 | the track spline returns to its first keyframe one loop length later |
| Animation.AnimState.constructor | src/modules/supersplat-viewer/index.js:1283-1287 | resets the cursor to the duration and loop mode and stores spline and frame rate |
| Animation.AnimState.Update | src/modules/supersplat-viewer/index.js:1289-1299 | advances the cursor by dt, samples the spline at value * frameRate, and takes position and target from the sample iff every channel is finite |
| Frames.InputFrame.Read | src/modules/supersplat-viewer/index.js:1332 | reading returns the appended deltas and drains the frame |
| Frames.InputFrame.constructor | src/modules/supersplat-viewer/index.js:1707-1710 | a new frame holds no move and no rotate deltas |
| Frames.InputFrame.AppendMove | src/modules/supersplat-viewer/index.js:1842 | appends one move delta and leaves the rotate deltas |
| Frames.InputFrame.AppendRotate | src/modules/supersplat-viewer/index.js:1847 | appends one rotate delta and leaves the move deltas |
| CameraModel.Lerp | src/modules/supersplat-viewer/index.js:1512 | the blended field of view is the start at t = 0, the end at t = 1, and unchanged when both agree |
| CameraModel.WithMode | src/modules/supersplat-viewer/index.js:20-24 | assigning the current mode changes nothing; otherwise target and from snapshot the camera, fromMode is the old mode, onExit then onEnter run once each, and the timer is 0 |
| CameraModel.SwitchedMode | src/modules/supersplat-viewer/index.js:1553-1566 | the whole manager after a mode change, field by field |
| CameraModel.InitialModeCases | src/modules/supersplat-viewer/index.js:1492 | the start mode is `anim` iff there is an animation, else `orbit` iff the camera starts outside the bounds |
| CameraModel.AnimationChoice | src/modules/supersplat-viewer/index.js:1463-1484 | there is an animation iff the settings start with a track and have one, or the camera starts outside the bounds |
| CameraModel.InitialKeepsInv | src/modules/supersplat-viewer/index.js:1489-1501 | the new manager satisfies the invariant, with timer 1 and only the starting controller's onEnter run |
| CameraModel.Initial | src/modules/supersplat-viewer/index.js:1489-1501 | the constructed manager: every camera a copy of the reset camera, fromMode orbit outside the bounds and fly inside, the timer at 1, the starting controller entered |
| CameraModel.EnterController | src/modules/supersplat-viewer/index.js:1323-1326 | the entered controller's onEnter: orbit and fly attach to the displayed pose without smoothing, the animation snaps the displayed camera to its pose |
| CameraModel.InputKeepsInv | src/modules/supersplat-viewer/index.js:1523-1551 | every input event keeps the invariant |
| CameraModel.OnInput | src/modules/supersplat-viewer/index.js:1523-1551 | frame and reset go to orbit and glide to the frame or reset camera; playPause toggles pause in the animation, enters it unpaused from another mode, and does nothing without one; cancel and interrupt leave the animation for fromMode; interact and dblclick change nothing |
| CameraModel.ModeKeepsInv | src/modules/supersplat-viewer/index.js:1553-1566 | a mode change keeps the invariant when the animation is entered only if it exists |
| CameraModel.PickKeepsInv | src/modules/supersplat-viewer/index.js:1575-1582 | picking keeps the invariant |
| CameraModel.OnPick | src/modules/supersplat-viewer/index.js:1575-1582 | orbit, then the orbit controller glides to a camera at the current position looking at the picked point |
| CameraModel.ScrubKeepsInv | src/modules/supersplat-viewer/index.js:1568-1573 | scrubbing keeps the invariant |
| CameraModel.TickKeepsInv | src/modules/supersplat-viewer/index.js:1503-1521 | an update keeps the invariant, including every camera's field of view |
| CameraModel.ResetWhileOrbiting | src/modules/supersplat-viewer/index.js:1529-1531 | `reset` while in orbit only sends the orbit controller to the reset camera: no hooks, no new transition |
| CameraModel.OrbitCommands | src/modules/supersplat-viewer/index.js:1525-1532 | `frame`, `reset`, `pick` and `annotation.activate` end in orbit with the orbit controller sent to the requested pose |
| CameraModel.AnnotationFovIgnored | src/modules/supersplat-viewer/index.js:1583-1591 | an annotation's field of view has no effect on the result |
| CameraModel.PlayPauseCases | src/modules/supersplat-viewer/index.js:1533-1543 | `playPause` does nothing without an animation, toggles pause in `anim`, and otherwise enters `anim` unpaused |
| CameraModel.CancelCases | src/modules/supersplat-viewer/index.js:1544-1549 | `cancel` and `interrupt` return to fromMode only from `anim`, and do nothing otherwise |
| CameraModel.PlayThenCancel | src/modules/supersplat-viewer/index.js:1533-1549 | playing the animation and cancelling returns to the mode it started from |
| CameraModel.PausedAnimationStandsStill | src/modules/supersplat-viewer/index.js:1505 | the controller gets dt 0 exactly when the mode is `anim` and paused, else deltaTime |
| CameraModel.TickFacts | src/modules/supersplat-viewer/index.js:1503-1521 | the timer advances by the unpaused time; the display copies target at timer 1 and blends from `from` by easeOut before; animationTime is published only in `anim`; only the active controller steps |
| CameraModel.Settle | src/modules/supersplat-viewer/index.js:1510-1520 | below timer 1 the displayed camera eases from `from` to target by easeOut(timer), from then on it copies target |
| CameraModel.Drive | src/modules/supersplat-viewer/index.js:1508-1509 | orbit and fly feed the frame's deltas to their integrator and target takes the pose it reports; the animation puts target at its pose |
| CameraModel.Tick | src/modules/supersplat-viewer/index.js:1503-1521 | the timer advances by the unpaused time up to 1, the active controller moves target with the time paused in a paused animation, the displayed camera follows, and the animation time is published only in the animation |
| CameraModel.TimerSettles | src/modules/supersplat-viewer/index.js:1500-1507 | over non-negative frame times the timer is min(1, timer + 2 * elapsed): it never decreases and never passes 1 |
| CameraModel.StartAnimation | src/modules/supersplat-viewer/index.js:1317-1322 | an animation exists iff there is a track; it is the track's spline, frame rate and reset cursor advanced by 0, with the result buffer holding the sample there and position and target taken from it when finite, the origin otherwise |
| CameraModel.CameraManager.constructor | src/modules/supersplat-viewer/index.js:1458-1501 | reset and frame cameras from the first settings camera, hasAnimation and animationDuration, the animation started from the chosen track with its pose at the first sample, and the initial manager in the initial mode |
| CameraModel.CameraManager.RunOnEnter | src/modules/supersplat-viewer/index.js:1323-1326 | the entered controller's onEnter: orbit and fly attach, the animation snaps the camera to its pose |
| CameraModel.CameraManager.SetMode | src/modules/supersplat-viewer/index.js:1553-1566 | a cameraMode assignment through the observe guard is exactly `WithMode` |
| CameraModel.CameraManager.HandleInput | src/modules/supersplat-viewer/index.js:1523-1551 | the inputEvent handler is exactly `OnInput` and keeps the manager valid |
| CameraModel.CameraManager.ScrubAnim | src/modules/supersplat-viewer/index.js:1568-1573 | enters `anim` and sets the cursor to mod(time, duration), leaving timer, duration and loop mode |
| CameraModel.CameraManager.Pick | src/modules/supersplat-viewer/index.js:1575-1582 | orbit, then the orbit controller goes to a camera at the current position looking at the picked point |
| CameraModel.CameraManager.ActivateAnnotation | src/modules/supersplat-viewer/index.js:1583-1591 | orbit, then the orbit controller goes to the annotation's camera |
| CameraModel.OnActivate | src/modules/supersplat-viewer/index.js:1583-1591 | orbit, then the orbit controller glides to the annotation camera's position and target |
| CameraModel.CameraManager.Update | src/modules/supersplat-viewer/index.js:1503-1521 | the update closure is exactly `Tick`; the frame is drained; the animation advances only in `anim`, by 0 while paused, and then shows the spline's sample at the new cursor, keeping the old pose when it is not finite |
| CameraModel.CameraManager.DriveController | src/modules/supersplat-viewer/index.js:1508-1509 | the active controller's update with dt, reading the frame; in `anim` the animation then shows the spline's sample at the advanced cursor, keeping the old pose when it is not finite |
| CameraModel.CameraManager.ShowCamera | src/modules/supersplat-viewer/index.js:1510-1520 | the displayed camera and the published animation time at the end of an update |
| Input.JoystickCases | src/modules/supersplat-viewer/index.js:1724-1732 | base and stick are null together, exactly when a coordinate is negative; otherwise base is (bx, by) and stick the thumb's offset from it |
| Input.JoystickOf | src/modules/supersplat-viewer/index.js:1724-1732 | no base and no stick when a coordinate is negative, else the base position and the thumb's offset from it |
| Input.InputController.OnJoystick | src/modules/supersplat-viewer/index.js:1724-1732 | the joystick handler stores `JoystickOf` and nothing else |
| Input.SecondTapFires | src/modules/supersplat-viewer/index.js:1744-1759 | a tap less than 300 ms and 8 px after a recorded tap fires dblclick |
| Input.IsDoubleTap | src/modules/supersplat-viewer/index.js:1744-1759 | less than 300 ms after the recorded tap, a backwards clock counting as no delay, and less than 8 px away on each axis |
| Input.NoTripleTap | src/modules/supersplat-viewer/index.js:1751-1752 | after a double tap the recorded time is 0, so a third quick tap does not fire again |
| Input.BackwardClockIsImmediate | src/modules/supersplat-viewer/index.js:1747 | a clock that went backwards counts as no delay |
| Input.InputController.PointerDown | src/modules/supersplat-viewer/index.js:1745-1759 | fires iff `IsDoubleTap` and updates the recorded tap by `AfterTap` |
| Input.KeyCommandMeans | src/modules/supersplat-viewer/index.js:1783-1800 | Escape cancels; f, r and space without ctrl, alt or meta frame, reset and play/pause; no other key fires |
| Input.KeyCommand | src/modules/supersplat-viewer/index.js:1783-1800 | Escape cancels; f, r and space without ctrl, alt or meta frame, reset and play or pause; any other key fires nothing |
| Input.CanvasEventMeans | src/modules/supersplat-viewer/index.js:1735-1742 | wheel, pointerdown, contextmenu and keydown interrupt; pointermove interacts; nothing else fires |
| Input.CanvasEvent | src/modules/supersplat-viewer/index.js:1735-1742 | wheel, pointerdown, contextmenu and keydown interrupt, pointermove interacts, any other event fires nothing |
| Input.InputModeMeans | src/modules/supersplat-viewer/index.js:1777-1780 | inputMode is touch iff the pointer type is touch, else desktop |
| Input.InputController.OnPointer | src/modules/supersplat-viewer/index.js:1777-1780 | the pointer handler sets inputMode and nothing else |
| Input.AddButtons | src/modules/supersplat-viewer/index.js:1819-1821 | each mouse counter gains its button change; counters past the buttons stay |
| Input.InputController.AddButtonChanges | src/modules/supersplat-viewer/index.js:1819-1821 | the loop adds every button change to its counter in place |
| Input.HeldIsRunningTotal | src/modules/supersplat-viewer/index.js:1817-1823 | over any run of frames, shift, ctrl and touches are the starting counts plus the sums of their readings |
| Input.InputController.Gather | src/modules/supersplat-viewer/index.js:1817-1823 | one frame's accumulation of axis, touches, mouse, shift and ctrl |
| Input.KeyboardMovesOnlyInFly | src/modules/supersplat-viewer/index.js:1835-1836 | the keys move only in fly mode, at speed x4 with shift, else x0.25 with ctrl, else x1 |
| Input.RightButtonPans | src/modules/supersplat-viewer/index.js:1830-1846 | with the right button held the mouse pans and does not rotate |
| Input.DesktopMoveFlipsInOrbit | src/modules/supersplat-viewer/index.js:1842 | the appended desktop move has its z negated exactly in orbit mode |
| Input.FrameDeltasShape | src/modules/supersplat-viewer/index.js:1833-1873 | exactly three moves and three rotates: desktop, mobile and gamepad, in that order |
| Input.FrameDeltas | src/modules/supersplat-viewer/index.js:1808-1873 | the desktop, mobile and gamepad moves and rotations one update appends, in that order, with the fly rotation factor read from the camera entity's fov |
| Input.AfterKeysMeans | src/modules/supersplat-viewer/index.js:1824-1826 | a non-zero key axis outside fly mode switches to fly; otherwise the manager is unchanged |
| Input.InputController.FlyOnKeys | src/modules/supersplat-viewer/index.js:1824-1826 | the automatic fly switch, through the mode guard |
| Input.InputController.Emit | src/modules/supersplat-viewer/index.js:1833-1873 | appends the frame's three moves and three rotates to the input frame |
| Input.InputController.Update | src/modules/supersplat-viewer/index.js:1808-1878 | accumulates, switches to fly on keys, appends the deltas with the fly rotation factor taken from the camera entity's fov (a parameter: the previous frame's fov, or the component default before the first frame), and fires the joystick update only in fly mode |
| Input.InputController.constructor | src/modules/supersplat-viewer/index.js:1695-1716 | zeroed accumulators, no joystick, no tap, desktop mode and speeds 4, 18, 0.4 and 0.06 |
| Settings.MigrateTrack | src/modules/supersplat-viewer/index.js:32-46 | a track with a falsy frame rate gets 30 and its times are multiplied by 30; a missing smoothness becomes 0; nothing else changes |
| Settings.MigrateV1 | src/modules/supersplat-viewer/index.js:30-53 | the in-place loops produce every track migrated, or an empty track list when there was none |
| Settings.MigratedV1 | src/modules/supersplat-viewer/index.js:30-53 | every track migrated, or an empty track list when there was none |
| Settings.CompleteTrackUntouched | src/modules/supersplat-viewer/index.js:34-45 | a track with both a frame rate and a smoothness is left as it was |
| Settings.MigrateV1Idempotent | src/modules/supersplat-viewer/index.js:30-53 | migrating a migrated document changes nothing |
| Settings.MigratedV1IsComplete | src/modules/supersplat-viewer/index.js:30-53 | after migrateV1 every track has a frame rate and a smoothness |
| Settings.MigrateAnimTrackV2 | src/modules/supersplat-viewer/index.js:54-71 | copies every track field and adds one fov keyframe per time, all equal to the given fov |
| Settings.MigrateV2 | src/modules/supersplat-viewer/index.js:72-123 | version 2 with one camera defaulting to [0,0,5], [0,0,0] and 65; tracks migrated with `fov or 60`; hasStartPose iff both position and target; startMode animTrack iff startAnim is animTrack |
| Settings.ImportSettings | src/modules/supersplat-viewer/index.js:125-140 | no version: migrateV2(migrateV1(s)); version 2: returned unchanged; any other version: an error and no result |
| Settings.ImportSettingsV1 | src/modules/supersplat-viewer/index.js:128-131 | the upgrade path with migrateV1 run in place agrees with `ImportSettings` |
| Settings.ImportIdempotent | src/modules/supersplat-viewer/index.js:125-140 | importing an imported document returns it unchanged |
| Settings.ImportFailsExactlyOnOtherVersions | src/modules/supersplat-viewer/index.js:136-138 | importing fails iff the document has a version other than 2 |
| Observe.RefusesUnknown | src/modules/supersplat-viewer/index.js:9-18 | a symbol, or a key absent when wrapped, returns false and leaves the target and the events unchanged |
| Observe.SameValueIsSilent | src/modules/supersplat-viewer/index.js:19-25 | assigning a property its current value is accepted and fires nothing |
| Observe.ChangeFiresOnce | src/modules/supersplat-viewer/index.js:19-25 | assigning a different value updates only that property and fires exactly one change event with (new, previous) |
| Observe.KeepsMembers | src/modules/supersplat-viewer/index.js:6-18 | the wrapped object never gains or loses a property |
| Observe.AssignIdempotent | src/modules/supersplat-viewer/index.js:19-25 | the same assignment a second time is silent and changes nothing |
| Observe.ChangeAndRestore | src/modules/supersplat-viewer/index.js:19-25 | changing a property and assigning back its old value restores the target and fires one event each way |
| Observe.Observed.constructor | src/modules/supersplat-viewer/index.js:5-8 | the proxy wraps the target's properties, fixes its set of names, and has fired nothing |
| Observe.Observed.Set | src/modules/supersplat-viewer/index.js:8-26 | the set trap is exactly `Assign`: its return value, the new properties, and the events it appends |
| Observe.Assign | src/modules/supersplat-viewer/index.js:8-26 | a symbol or an unknown property is refused; a different value is stored and fires its change event with the previous value; an equal value is accepted silently |
| XrNavigation.SnapTurnSteps | src/modules/supersplat-viewer/index.js:2636-2659 | lastRotateValue stays in {-1, 0, 1}; a turn happens iff the state is released to 0 and abs(rotate) exceeds the threshold, and then it turns by sign(rotate) and remembers that sign |
| XrNavigation.TurnOf | src/modules/supersplat-viewer/index.js:2640-2649 | a turn in the stick's direction exactly when the hysteresis state, after release, is clear and the reading is past the threshold |
| XrNavigation.HeldStickTurnsOnce | src/modules/supersplat-viewer/index.js:2640-2650 | a stick held on one side, never back inside the reset band, turns at most once |
| XrNavigation.HeldAfterTurn | src/modules/supersplat-viewer/index.js:2640-2645 | after a turn to one side, holding that side turns no more and keeps the state |
| XrNavigation.FlickTwice | src/modules/supersplat-viewer/index.js:2640-2650 | flick right, release, flick right again: two turns |
| XrNavigation.Navigation.constructor | src/modules/supersplat-viewer/index.js:2367-2452 | the rig starts released (lastRotateValue 0), with snap threshold 0.5, reset threshold 0.25 and 45 degrees a turn |
| XrNavigation.Navigation.HandleSnapTurning | src/modules/supersplat-viewer/index.js:2636-2659 | updates lastRotateValue by the hysteresis and turns by sign(rotate) * 45 degrees only when a camera is attached |
| XrNavigation.PlaneIntersectionMeans | src/modules/supersplat-viewer/index.js:2553-2565 | there is a hit iff abs(direction.y) >= 0.00001 and t = -origin.y / direction.y >= 0; the hit is origin + t * direction, on y = 0 |
| XrNavigation.FindPlaneIntersection | src/modules/supersplat-viewer/index.js:2553-2565 | none for a ray within 0.00001 of parallel or pointing away from y = 0, else the ray's point on y = 0 |
| XrNavigation.DownwardRayHits | src/modules/supersplat-viewer/index.js:2553-2565 | from above the ground a downward ray hits and an upward ray misses |
| Viewer.ClipPlanesFit | src/modules/supersplat-viewer/index.js:2065-2072 | for r >= 0, 0 < near <= far, far >= 0.01, far >= dist + r and far <= 16384 * near; near reaches the bound's near side iff that side is not closer than far / 16384 |
| Viewer.ClipPlanes | src/modules/supersplat-viewer/index.js:2065-2072 | far just behind the bound and at least 0.01, near just before it but no closer than far / 16384 |
| Viewer.ClipHugsBound | src/modules/supersplat-viewer/index.js:2068-2069 | a bound in front of the camera and not too deep is clipped exactly at its two sides |
| Viewer.ProgressAtMost100 | src/modules/supersplat-viewer/index.js:2813 | a progress value is never above 100 |
| Viewer.Progress | src/modules/supersplat-viewer/index.js:2813 | min(1, received / length) * 100, 100 for a positive amount over a zero length, and none for NaN or minus infinity |
| Viewer.WatermarkStep | src/modules/supersplat-viewer/index.js:2812-2817 | an event raises the watermark strictly iff its progress is above it, and the watermark stays within [its old value, 100] |
| Viewer.ReportsNonDecreasing | src/modules/supersplat-viewer/index.js:2811-2817 | over any run of events the reported percentages never decrease and lie between trunc(start) and 100 |
| Viewer.SamePercentTwice | src/modules/supersplat-viewer/index.js:2814-2816 | progress 10.2 then 10.7 reports 10 twice: the reports are not strictly increasing |
| Viewer.Load.constructor | src/modules/supersplat-viewer/index.js:2811 | a new load has watermark 0 and has reported nothing |
| Viewer.Load.OnProgress | src/modules/supersplat-viewer/index.js:2812-2817 | one progress event moves the watermark by `NextWatermark` and reports trunc of it iff it rose |

## Left out

- I/O and the environment: the DOM, canvas listeners, `console.error`, `Date.now()` (a parameter `now`), `window` events, the `Picker`'s GPU read-back (a picked point arrives as a parameter), and asset, audio and XR session handling.
- Input.InputController.Update takes the camera entity's field of view as a parameter `entityFov`: the entity's camera component, which the frame loop updates from the manager only after the manager's update, is not part of this model.
- Floating point: every number is an exact real, so rounding and overflow are not modelled; NaN and infinities appear only where the code can make them, as `NonFinite`.
- Camera pose algebra (`Camera.look`, the pose part of `Camera.lerp`, `calcFocusPoint`), `createFrameCamera`, `createRotateTrack`, `screenToWorld` and vector normalisation are opaque functions or parameters; `vecToAngles`' trigonometry is given as functions.
- The orbit and fly controllers are the engine's damped integrators: the model keeps only what they are told (`attach` and each update's deltas) and takes their resulting pose from an opaque function.
- The input frame keeps the appended deltas as a log; the engine's summation of them is part of the opaque integrators.
- `damp` is declared in the math typings but has no implementation in the bundle.
- The smooth locomotion, teleport drawing and controller models of the XR code; the snap turn's translate-rotate-translate about the camera is a yaw total.
- Spline.CalcKnots, Spline.FromPoints and Spline.FromPointsLooping require at least one time and a whole number of channels per time; `calcKnots` with no times fails in the engine and is not modelled.
- Spline.CubicSpline.Evaluate writes into a caller array of at least `dim` entries; JavaScript grows a shorter array, which is not modelled.
- Cursor.AnimCursor.Update and Cursor.AnimCursor.SetValue require a non-zero duration where the code divides by it; JavaScript's NaN cursor for duration 0 is not modelled.
- Animation.FromTrack requires a playable track: keyframes, three position and three target entries per keyframe, and a non-zero duration when looping.
- Settings.MigrateAnimTrackV2 and Settings.MigrateV2 require tracks that migrateV1 has completed, as the code only ever calls them on its output.
- A version 1 document always has a background colour option and a camera record here, so one with no `background` or no `camera` object, on which `migrateV2` throws (index.js:78, 110-121), cannot be written; the model covers only absent fields inside them.
- CameraModel.CameraManager.constructor requires a first settings camera with three-entry position and target; the code reads them unconditionally.
- CameraModel.CameraManager.ActivateAnnotation and CameraModel.OnActivate require the annotation camera's position and target to have three entries each: settings documents are taken to be well-formed (index.js:124) and the handler reads the entries unconditionally.
- CameraModel.CameraManager.ScrubAnim requires an animation, as the handler dereferences it unconditionally, and a non-zero animation duration (`anim.cursor.duration != 0.0`): the value setter's mod by a zero duration is NaN, which the real-number model does not represent.
- The camera manager writes `state.animationPaused` and reads it; other writers of that flag in the UI are not part of this model.
- Observe.Assign compares with the value type's equality; JavaScript's `!==` treats NaN as different from itself, which is not modelled.
- Input.InputController keeps `inputMode` as its own field where the code writes the shared `state.inputMode`.
- Input.AddButtons requires at most three button readings, the size of the mouse counter array.
- The progress listener models NaN (nothing of an unknown length) and minus infinity as no report; neither can exceed a watermark.
