/** The mouse-driven camera rig controller: the state it keeps between frames
    and the three per-frame updates, run in the order the controller's
    late-update hook runs them. Engine inputs (pointer, scroll wheel, button,
    screen size, frame time, the rig's axes and height) are parameters. */
module CameraController {
  import opened EngineMath
  import opened CameraLogic

  /** The author-tunable constants. `cameraMoveSpeed` is the smoothing time
      of the engine's damped interpolation, which this model leaves out; it is
      kept so that the record is complete. */
  datatype Settings = Settings(
    panThreshold: int,
    movementSpeed: real,
    maxZoom: real,
    minZoom: real,
    zoomSpeed: real,
    maxRotation: real,
    rotationSpeed: real,
    cameraMoveSpeed: real)

  /** The engine's defaults for the constants above. */
  const DefaultSettings: Settings := Settings(20, 10.0, 5.0, -2.0, 10.0, 25.0, 10.0, 0.3)

  /** One frame's sample of the pointer devices. */
  datatype InputSample = InputSample(
    mouse: Vec2,          // cursor position in screen pixels
    mouseDeltaX: real,    // horizontal pointer movement
    scroll: real,         // scroll-wheel delta, positive toward the scene
    rotateHeld: bool)     // secondary button held

  /** What the controller reads of the rig's transform in a frame. */
  datatype RigPose = RigPose(right: Vec3, forward: Vec3, height: real)

  class Controller {
    const settings: Settings
    var initialPosition: Vec3
    var targetPosition: Vec3
    var rotationY: real
    var rotating: bool
    var initialZoom: real
    var targetZoom: real

    /** The zoom target lies in the configured range. */
    ghost predicate ZoomInRange()
      reads this
    {
      settings.minZoom <= targetZoom <= settings.maxZoom
    }

    /** Set-up from the rig's position and the camera's local depth: the
        position target is the rig's position (its height pinned to the
        rig's) and the zoom target the depth clamped into range. */
    constructor Start(settings: Settings, rigPosition: Vec3, cameraDepth: real)
      ensures this.settings == settings
      ensures initialPosition == rigPosition && targetPosition == rigPosition
      ensures initialZoom == targetZoom == Clamp(cameraDepth, settings.minZoom, settings.maxZoom)
      ensures settings.minZoom <= settings.maxZoom ==> ZoomInRange()
      ensures settings.minZoom <= cameraDepth <= settings.maxZoom ==> targetZoom == cameraDepth
      ensures rotationY == 0.0 && !rotating
    {
      this.settings := settings;
      rotationY := 0.0;
      rotating := false;
      initialPosition := rigPosition;
      targetPosition := initialPosition;
      initialZoom := Clamp(cameraDepth, settings.minZoom, settings.maxZoom);
      targetZoom := initialZoom;
      new;
      targetPosition := targetPosition.(y := rigPosition.y);
    }

    /** The position step: edge-pan the target by `dt * movementSpeed` along
        the rig's axes, then pin its height. Reads `rotating` as the previous
        rotation step left it. Returns the edge vector it used. */
    method UpdatePosition(mouse: Vec2, screenWidth: int, screenHeight: int, pose: RigPose, dt: real) returns (edge: Vec2)
      modifies this`targetPosition
      ensures edge == MouseScreenEdge(rotating, mouse, screenWidth, screenHeight, settings.panThreshold)
      ensures targetPosition ==
        PanTarget(old(targetPosition), edge, pose.right, pose.forward, pose.height, dt, settings.movementSpeed)
      ensures targetPosition.y == pose.height
    {
      edge := MouseScreenEdge(rotating, mouse, screenWidth, screenHeight, settings.panThreshold);
      if !NearZero(edge.x) {
        if edge.x < 0.0 {
          targetPosition := targetPosition.Sub(pose.right.Scale(dt).Scale(settings.movementSpeed));
        } else {
          targetPosition := targetPosition.Add(pose.right.Scale(dt).Scale(settings.movementSpeed));
        }
      }
      if !NearZero(edge.y) {
        if edge.y < 0.0 {
          targetPosition := targetPosition.Sub(pose.forward.Scale(dt).Scale(settings.movementSpeed));
        } else {
          targetPosition := targetPosition.Add(pose.forward.Scale(dt).Scale(settings.movementSpeed));
        }
      }
      targetPosition := targetPosition.(y := pose.height);
    }

    /** The rotation step: `rotating` follows the button, and while it is
        held the yaw accumulates `mouseDeltaX * rotationSpeed`. */
    method UpdateCameraRotation(rotateHeld: bool, mouseDeltaX: real)
      modifies this`rotating, this`rotationY
      ensures rotating == rotateHeld
      ensures rotateHeld ==> rotationY == old(rotationY) + mouseDeltaX * settings.rotationSpeed
      ensures !rotateHeld ==> rotationY == old(rotationY)
    {
      rotating := false;
      if rotateHeld {
        rotating := true;
        rotationY := rotationY + mouseDeltaX * settings.rotationSpeed;
      }
    }

    /** The zoom step: move the zoom target for this frame's scroll, then
        return the pitch the camera tilts toward. */
    method UpdateZoom(scroll: real, dt: real) returns (targetPitch: real)
      requires settings.maxZoom > 0.0
      modifies this`targetZoom
      ensures targetZoom ==
        ZoomStep(old(targetZoom), scroll, dt, settings.zoomSpeed, settings.minZoom, settings.maxZoom)
      ensures settings.minZoom <= settings.maxZoom && (old(ZoomInRange()) || !NearZero(scroll)) ==> ZoomInRange()
      ensures targetPitch == TargetPitch(targetZoom, settings.maxZoom, settings.maxRotation)
      ensures settings.maxRotation >= 0.0 ==> -settings.maxRotation <= targetPitch <= 0.0
    {
      var deltaZoom := scroll;
      if !NearZero(deltaZoom) {
        if deltaZoom < 0.0 {
          targetZoom := Clamp(targetZoom - dt * settings.zoomSpeed, settings.minZoom, settings.maxZoom);
        } else {
          targetZoom := Clamp(targetZoom + dt * settings.zoomSpeed, settings.minZoom, settings.maxZoom);
        }
      }
      var normRotation := Clamp(targetZoom / settings.maxZoom, 0.0, 1.0);
      targetPitch := normRotation * (-settings.maxRotation);
    }

    /** One frame: position, then rotation, then zoom. The edge vector is
        therefore computed from the previous frame's `rotating`. */
    method LateUpdate(input: InputSample, screenWidth: int, screenHeight: int, pose: RigPose, dt: real)
      returns (edge: Vec2, targetPitch: real)
      requires settings.maxZoom > 0.0
      modifies this
      ensures edge == MouseScreenEdge(old(rotating), input.mouse, screenWidth, screenHeight, settings.panThreshold)
      ensures old(rotating) ==> edge == Zero2 && targetPosition == old(targetPosition).(y := pose.height)
      ensures targetPosition ==
        PanTarget(old(targetPosition), edge, pose.right, pose.forward, pose.height, dt, settings.movementSpeed)
      ensures rotating == input.rotateHeld
      ensures rotationY ==
        if input.rotateHeld then old(rotationY) + input.mouseDeltaX * settings.rotationSpeed else old(rotationY)
      ensures targetZoom ==
        ZoomStep(old(targetZoom), input.scroll, dt, settings.zoomSpeed, settings.minZoom, settings.maxZoom)
      ensures settings.minZoom <= settings.maxZoom && old(ZoomInRange()) ==> ZoomInRange()
      ensures targetPitch == TargetPitch(targetZoom, settings.maxZoom, settings.maxRotation)
      ensures initialPosition == old(initialPosition) && initialZoom == old(initialZoom)
    {
      edge := UpdatePosition(input.mouse, screenWidth, screenHeight, pose, dt);
      if old(rotating) {
        PanTargetStill(old(targetPosition), edge, pose.right, pose.forward, pose.height, dt, settings.movementSpeed);
      }
      UpdateCameraRotation(input.rotateHeld, input.mouseDeltaX);
      targetPitch := UpdateZoom(input.scroll, dt);
    }
  }

  /** Frames on a 1920 x 1080 screen with the default constants. */
  method DefaultRigFrames(pose: RigPose)
    requires pose.height == 3.0
  {
    var rig := new Controller.Start(DefaultSettings, Vec3(0.0, 3.0, 0.0), 0.0);
    assert rig.targetZoom == 0.0;

    // Cursor 950 px right of centre, 10 px beyond the inner boundary at 940:
    // edge (10, 0); holding the button in the same frame does not stop this
    // frame's pan, and a negative scroll for one second clamps to MinZoom.
    var edge, pitch := rig.LateUpdate(InputSample(Vec2(1910.0, 540.0), 2.0, -1.0, true), 1920, 1080, pose, 1.0);
    assert edge == Vec2(10.0, 0.0);
    assert rig.targetPosition == Vec3(10.0 * pose.right.x, 3.0, 10.0 * pose.right.z);
    assert rig.rotating && rig.rotationY == 20.0;
    assert rig.targetZoom == -2.0;
    TargetPitchFlat(rig.targetZoom, 5.0, 25.0);
    assert pitch == 0.0;

    // The next frame reads the previous frame's rotation: no pan, even with
    // the button released. Zooming in far enough reaches full tilt.
    var before := rig.targetPosition;
    edge, pitch := rig.LateUpdate(InputSample(Vec2(1919.0, 0.0), 0.0, 1.0, false), 1920, 1080, pose, 1.0);
    assert edge == Zero2 && rig.targetPosition == before;
    assert !rig.rotating && rig.rotationY == 20.0;
    assert rig.targetZoom == 5.0;
    TargetPitchFull(rig.targetZoom, 5.0, 25.0);
    assert pitch == -25.0;
  }
}
