# Top-down RTS camera rig: mouse input controller

A Dafny model of the per-frame state logic of `TopDownRTSCameraMouseInputController`,
a Unity component that drives a camera rig for a top-down strategy view:

- **edge panning**: when the cursor enters a margin band along the screen border, the
  rig's position target moves along the rig's right or forward axis;
- **scroll zoom**: the scroll wheel moves a zoom target (the camera's local depth)
  inside `[MinZoom, MaxZoom]`, and the camera tilts toward a pitch derived from that
  target;
- **free rotation**: while the secondary mouse button is held, horizontal mouse motion
  accumulates the rig's yaw, and edge panning is suspended.

Floats are modelled as `real`; `Screen.width/height` and the pan margin are `int`.
Engine reads (`Input.*`, `Screen.*`, `Time.deltaTime`, the rig transform's right and
forward axes and its height) are method parameters.

Files:

- `engine_math.dfy` (module `EngineMath`): `Vector2`/`Vector3` as datatypes, `Mathf.Abs`,
  `Mathf.Clamp` (lower bound tested first), and C#'s truncating `int / 2`.
- `camera_logic.dfy` (module `CameraLogic`): the pure parts — the screen-edge dead zone,
  the zoom step, the pitch formula and the position step — with their lemmas, and the
  zoom target over a run of frames.
- `camera_controller.dfy` (module `CameraController`): the component as a class whose
  fields are the ones the source keeps (`initialPosition`, `targetPosition`, `rotationY`,
  `rotating`, `initialZoom`, `targetZoom`), a constructor for `Start`, one method per update, and
  `LateUpdate` running them in the source's order. `DefaultRigFrames` replays two frames
  with the default constants on a 1920 x 1080 screen.

Behaviour as the code has it, where a reader might expect otherwise:

- A frame runs position, then rotation, then zoom (lines 80-86). The edge vector is
  therefore computed from the previous frame's `_rotating`: the frame in which the
  button is first held still pans, and the first frame after release does not
  (`LateUpdate`'s contract; `DefaultRigFrames` shows both).
- The zoom fraction is clamped into `[0, 1]` before it scales `-MaxRotation`, so a
  negative zoom target gives pitch 0, never a positive pitch (`TargetPitchFlat`).
- A frame with zero elapsed time leaves the zoom target (when in range) and the ground
  position of the position target unchanged, but not the yaw: the yaw step
  `mouseX * RotationSpeed` does not depend on the frame time.
- `Mathf.Approximately(v, 0)` is modelled as `v == 0` (`NearZero`).

## Model

| member | source | states |
|---|---|---|
| `EngineMath.Clamp` | Assets/Scripts/Input/TopDownRTSCameraMouseInputController.cs:111-113 | `Mathf.Clamp`: a value below `min` gives `min`, otherwise a value above `max` gives `max`, otherwise the value itself; so with `min <= max` the result lies in `[min, max]`. |
| `EngineMath.Abs` | Assets/Scripts/Input/TopDownRTSCameraMouseInputController.cs:189-195 | `Mathf.Abs`: the result is non-negative and equals the value or its negation. |
| `EngineMath.HalfTruncated` | Assets/Scripts/Input/TopDownRTSCameraMouseInputController.cs:181 | Half a screen extent by C# integer division: within one pixel below half the size, truncating toward zero. |
| `CameraLogic.EdgeAxis` | Assets/Scripts/Input/TopDownRTSCameraMouseInputController.cs:187-199 | One edge component is exactly 0 when the offset's magnitude is at most the inner boundary; beyond it its magnitude is the excess over the boundary and its sign that of the offset; it is 0 if and only if the offset is inside. |
| `CameraLogic.MouseScreenEdge` | Assets/Scripts/Input/TopDownRTSCameraMouseInputController.cs:175-201 | While rotating the edge vector is (0, 0) whatever the cursor; otherwise each axis is the dead-zone-with-ramp of the cursor's offset from the centre (half by integer division) against `half - margin`. |
| `CameraLogic.EdgeActiveIff` | Assets/Scripts/Input/TopDownRTSCameraMouseInputController.cs:177-199 | An edge component is non-zero if and only if the rig is not rotating and the cursor is beyond that axis's inner boundary. |
| `CameraLogic.EdgeAxisWithinScreen` | Assets/Scripts/Input/TopDownRTSCameraMouseInputController.cs:189-196 | With a non-negative boundary (margin at most half the screen), the component beyond the boundary is `offset - boundary` for a positive offset and `offset + boundary` for a negative one, and a non-zero component needs a non-zero offset. |
| `CameraLogic.ZoomStep` | Assets/Scripts/Input/TopDownRTSCameraMouseInputController.cs:108-115 | Without scroll the zoom target is unchanged; with scroll it ends in `[MinZoom, MaxZoom]` whatever it started from. |
| `CameraLogic.ZoomStepKeepsRange` | Assets/Scripts/Input/TopDownRTSCameraMouseInputController.cs:109-115 | An in-range zoom target stays in range after any frame's scroll. |
| `CameraLogic.ZoomOutStep` | Assets/Scripts/Input/TopDownRTSCameraMouseInputController.cs:110-111 | A negative scroll never increases a target at or above `MinZoom`; from inside the range it gives exactly `max(old - dt*ZoomSpeed, MinZoom)`. |
| `CameraLogic.ZoomInStep` | Assets/Scripts/Input/TopDownRTSCameraMouseInputController.cs:112-113 | A positive scroll never decreases a target at or below `MaxZoom`; from inside the range it gives exactly `min(old + dt*ZoomSpeed, MaxZoom)`. |
| `CameraLogic.ZoomAfterAppend` | Assets/Scripts/Input/TopDownRTSCameraMouseInputController.cs:77-87 | One more frame after a run of frames applies exactly one more zoom step to the target the run left, as a further `LateUpdate` does. |
| `CameraLogic.ZoomAfterKeepsRange` | Assets/Scripts/Input/TopDownRTSCameraMouseInputController.cs:105-115 | Over any run of frames, a zoom target that starts in range (as `Start` leaves it) stays in range. |
| `CameraLogic.ZoomAfterScrollEntersRange` | Assets/Scripts/Input/TopDownRTSCameraMouseInputController.cs:109-115 | After any run of frames containing a scroll, the zoom target is in range whatever it started from. |
| `CameraLogic.ZoomAfterIdle` | Assets/Scripts/Input/TopDownRTSCameraMouseInputController.cs:109 | Frames without scroll leave the zoom target unchanged. |
| `CameraLogic.ZoomAfterFrozen` | Assets/Scripts/Input/TopDownRTSCameraMouseInputController.cs:111-113 | Frames with zero elapsed time leave an in-range zoom target unchanged. |
| `CameraLogic.ZoomAfterZoomOut` | Assets/Scripts/Input/TopDownRTSCameraMouseInputController.cs:110-111 | A run of outward scrolls keeps the target between `MinZoom` and where it started. |
| `CameraLogic.TargetPitch` | Assets/Scripts/Input/TopDownRTSCameraMouseInputController.cs:124-125 | With `MaxZoom > 0` and `MaxRotation >= 0` the target pitch lies in `[-MaxRotation, 0]`: never positive. |
| `CameraLogic.TargetPitchFlat` | Assets/Scripts/Input/TopDownRTSCameraMouseInputController.cs:124-125 | The target pitch is 0 whenever the zoom target is at most 0. |
| `CameraLogic.TargetPitchFull` | Assets/Scripts/Input/TopDownRTSCameraMouseInputController.cs:124-125 | The target pitch is `-MaxRotation` whenever the zoom target is at least `MaxZoom`. |
| `CameraLogic.TargetPitchMonotone` | Assets/Scripts/Input/TopDownRTSCameraMouseInputController.cs:124-125 | The target pitch is non-increasing in the zoom target. |
| `CameraLogic.PanTarget` | Assets/Scripts/Input/TopDownRTSCameraMouseInputController.cs:143-161 | After a position step the target's height is the rig's current height. |
| `CameraLogic.PanTargetClosedForm` | Assets/Scripts/Input/TopDownRTSCameraMouseInputController.cs:143-161 | The position step adds exactly `dt*MovementSpeed` times the right vector and times the forward vector, each weighted by its axis's pan direction, then pins the height. |
| `CameraLogic.PanTargetStill` | Assets/Scripts/Input/TopDownRTSCameraMouseInputController.cs:143-161 | With both edge components near zero the target's x and z are unchanged and only its height is pinned. |
| `CameraLogic.PanTargetFrozen` | Assets/Scripts/Input/TopDownRTSCameraMouseInputController.cs:146-156 | With zero elapsed time the target's x and z are unchanged whatever the edge input. |
| `CameraLogic.EdgeAxisDirection` | Assets/Scripts/Input/TopDownRTSCameraMouseInputController.cs:189-199 | The pan direction of an edge component is 0 inside the boundary and otherwise the side of the centre the offset is on. |
| `CameraLogic.EdgePanFollowsCursor` | Assets/Scripts/Input/TopDownRTSCameraMouseInputController.cs:141-158 | From cursor to pan: no pan on either axis while rotating; otherwise an axis pans exactly when the cursor is beyond its inner boundary, away from the centre on the cursor's side. |
| `CameraController.Controller.Start` | Assets/Scripts/Input/TopDownRTSCameraMouseInputController.cs:49-68 | The position target starts at the rig's position with its height; the zoom target starts at the camera depth clamped into range (unchanged if already in range); not rotating, yaw 0. |
| `CameraController.Controller.UpdatePosition` | Assets/Scripts/Input/TopDownRTSCameraMouseInputController.cs:138-165 | The edge vector is computed from the current `rotating`, and the new position target is the position step of the old one, its height pinned to the rig's. |
| `CameraController.Controller.UpdateCameraRotation` | Assets/Scripts/Input/TopDownRTSCameraMouseInputController.cs:92-100 | `rotating` becomes the button state; with the button held the yaw grows by exactly `mouseX * RotationSpeed`, otherwise it is unchanged. |
| `CameraController.Controller.UpdateZoom` | Assets/Scripts/Input/TopDownRTSCameraMouseInputController.cs:105-133 | The new zoom target is the zoom step of the old one, in range after a scroll or when it was in range; the returned target pitch is the pitch formula of the new target, in `[-MaxRotation, 0]`. |
| `CameraController.Controller.LateUpdate` | Assets/Scripts/Input/TopDownRTSCameraMouseInputController.cs:77-87 | One frame in source order: the pan reads the previous frame's `rotating` (no pan if it was set), then rotation, then zoom; the zoom range is preserved; the initial values are untouched. |

`CameraLogic.NearZero` (`Mathf.Approximately(v, 0)` at lines 109, 143 and 151),
`CameraLogic.PanDirection` and `CameraLogic.PanAlong` (one axis of lines 143-158) and
`CameraLogic.ZoomAfter` (the zoom target over repeated frames of lines 77-87 and 108-115)
are plain definitions without contracts of their own; what they mean is stated by the
rows above that use them (`PanTargetClosedForm`, `EdgeAxisDirection`,
`EdgePanFollowsCursor`, and the `ZoomAfter...` lemmas). `PanTargetClosedForm` rests on
two helper lemmas: `CameraLogic.PanAlongByDirection` (one axis as a signed multiple of
its move) and `EngineMath.ScaleTwice` (`v * dt * speed` is `v` scaled by `dt * speed`).

## Left out

- `Vector3.SmoothDamp` and `Mathf.SmoothDampAngle` (lines 120-121, 127, 164) are engine library calls: the actual rig position, camera depth and camera pitch, and the three velocity accumulators, are not modelled; only the targets fed into them are.
- Writes to the engine's transforms (line 66, line 98's yaw, lines 118-121 and 130-132) are not modelled, and neither is Unity's normalisation of Euler angles when they are read back (lines 98, 126, 130).
- `GetComponentInChildren` (line 52) and the engine calling `Start` and `LateUpdate` are engine behaviour; the constructor and `LateUpdate` method stand for them.
- Float rounding and the exact tolerance of `Mathf.Approximately`: values are reals and "near zero" is exact zero.
- The tunable constants are fixed for the controller's lifetime (`const settings`); the engine's editor could change them between frames. Their editor ranges (for instance `MinZoom` in `[-10, 0]`) are not assumed; lemmas that need `MinZoom <= MaxZoom` or non-negative speeds say so.
- The pan axes `RigPose.right`/`RigPose.forward` are supplied by the caller each frame and are not derived from the modelled yaw `rotationY`; in the engine, the yaw written at line 98 in one frame is what `transform.right`/`transform.forward` show at lines 146-156 in the next.
- `_initialRotation` (line 40) is declared and never used.
- CameraController.Controller.UpdateZoom: requires `MaxZoom > 0`; for `MaxZoom = 0` the source divides a float by zero at line 124, whose IEEE result is not modelled.
- CameraController.Controller.LateUpdate: requires `MaxZoom > 0`, for the same division.
