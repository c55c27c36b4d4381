/** The per-frame arithmetic of the top-down RTS camera rig, as pure
    functions: the screen-edge dead zone, the zoom target step, the pitch
    derived from zoom, and the position target step. The controller class in
    CameraController applies them to its fields once per frame. */
module CameraLogic {
  import opened EngineMath

  // ---------------------------------------------------------------------
  // Near-zero test
  // ---------------------------------------------------------------------

  /** `Mathf.Approximately(v, 0f)`. The engine's float tolerance is not part
      of this model; a value is near zero exactly when it is zero. */
  predicate NearZero(v: real) {
    v == 0.0
  }

  // ---------------------------------------------------------------------
  // Screen-edge dead zone
  // ---------------------------------------------------------------------

  /** Half a screen extent in pixels, computed by integer division before it
      is turned into a float. */
  function HalfExtent(size: int): real {
    HalfTruncated(size) as real
  }

  /** Signed distance of the cursor from the screen centre along one axis. */
  function CentreOffset(cursor: real, size: int): real {
    cursor - HalfExtent(size)
  }

  /** Distance from the centre to the inner edge of the margin band. */
  function InnerBoundary(size: int, margin: int): real {
    HalfExtent(size) - margin as real
  }

  /** What one axis of the edge vector means: exactly zero while the offset is
      within the inner boundary; otherwise a value whose magnitude is the
      excess of the offset beyond the boundary and whose sign follows the
      offset (a zero offset counting as non-negative). */
  predicate DeadZoneRamp(offset: real, boundary: real, v: real) {
    (Abs(offset) <= boundary ==> v == 0.0) &&
    (Abs(offset) > boundary ==>
       Abs(v) == Abs(offset) - boundary &&
       (offset >= 0.0 ==> v >= 0.0) &&
       (offset < 0.0 ==> v < 0.0))
  }

  /** One axis of the edge vector: pull the offset back toward the centre by
      the boundary distance, or zero it inside the band. */
  function EdgeAxis(offset: real, boundary: real): (v: real)
    ensures DeadZoneRamp(offset, boundary, v)
    ensures v == 0.0 <==> Abs(offset) <= boundary
  {
    if Abs(offset) > boundary then
      offset + boundary * (if offset < 0.0 then 1.0 else -1.0)
    else
      0.0
  }

  /** The edge vector for a cursor at `mouse` on a `screenWidth` x `screenHeight` screen
      with a margin band of `margin` pixels; the zero vector while the rig is
      rotating. */
  function MouseScreenEdge(rotating: bool, mouse: Vec2, screenWidth: int, screenHeight: int, margin: int): (e: Vec2)
    ensures rotating ==> e == Zero2
    ensures !rotating ==>
      DeadZoneRamp(CentreOffset(mouse.x, screenWidth), InnerBoundary(screenWidth, margin), e.x) &&
      DeadZoneRamp(CentreOffset(mouse.y, screenHeight), InnerBoundary(screenHeight, margin), e.y)
  {
    if rotating then Zero2
    else
      var half := Vec2(HalfExtent(screenWidth), HalfExtent(screenHeight));
      var x := mouse.x - half.x;
      var y := mouse.y - half.y;
      Vec2(EdgeAxis(x, half.x - margin as real), EdgeAxis(y, half.y - margin as real))
  }

  /** Both directions: an axis of the edge vector is non-zero exactly when the
      rig is not rotating and the cursor lies beyond that axis's inner boundary. */
  lemma EdgeActiveIff(rotating: bool, mouse: Vec2, screenWidth: int, screenHeight: int, margin: int)
    ensures var e := MouseScreenEdge(rotating, mouse, screenWidth, screenHeight, margin);
      (e.x != 0.0 <==> !rotating && Abs(CentreOffset(mouse.x, screenWidth)) > InnerBoundary(screenWidth, margin)) &&
      (e.y != 0.0 <==> !rotating && Abs(CentreOffset(mouse.y, screenHeight)) > InnerBoundary(screenHeight, margin))
  {
  }

  /** When the margin does not exceed half the screen, a non-zero component
      comes only from a non-zero offset of the same sign, and the component on
      the far side of the boundary is the offset minus the boundary. */
  lemma EdgeAxisWithinScreen(offset: real, boundary: real)
    requires boundary >= 0.0
    ensures offset >= 0.0 && offset > boundary ==> EdgeAxis(offset, boundary) == offset - boundary > 0.0
    ensures offset < 0.0 && -offset > boundary ==> EdgeAxis(offset, boundary) == offset + boundary < 0.0
    ensures EdgeAxis(offset, boundary) != 0.0 ==> offset != 0.0
  {
  }

  // ---------------------------------------------------------------------
  // Zoom target
  // ---------------------------------------------------------------------

  /** The zoom target after one frame's scroll input: a step of
      `dt * zoomSpeed` outward for a negative scroll and inward for a
      positive one, clamped into `[minZoom, maxZoom]`; no change without
      scroll. */
  function ZoomStep(zoom: real, scroll: real, dt: real, zoomSpeed: real, minZoom: real, maxZoom: real): (z: real)
    ensures NearZero(scroll) ==> z == zoom
    ensures !NearZero(scroll) && minZoom <= maxZoom ==> minZoom <= z <= maxZoom
  {
    if NearZero(scroll) then zoom
    else if scroll < 0.0 then Clamp(zoom - dt * zoomSpeed, minZoom, maxZoom)
    else Clamp(zoom + dt * zoomSpeed, minZoom, maxZoom)
  }

  /** The zoom range is an invariant of the zoom step. */
  lemma ZoomStepKeepsRange(zoom: real, scroll: real, dt: real, zoomSpeed: real, minZoom: real, maxZoom: real)
    requires minZoom <= zoom <= maxZoom
    ensures minZoom <= ZoomStep(zoom, scroll, dt, zoomSpeed, minZoom, maxZoom) <= maxZoom
  {
  }

  /** A negative scroll never moves the target inward; from inside the range
      it lands exactly on `max(zoom - dt * zoomSpeed, minZoom)`. */
  lemma ZoomOutStep(zoom: real, scroll: real, dt: real, zoomSpeed: real, minZoom: real, maxZoom: real)
    requires scroll < 0.0 && dt >= 0.0 && zoomSpeed >= 0.0
    requires minZoom <= zoom
    ensures ZoomStep(zoom, scroll, dt, zoomSpeed, minZoom, maxZoom) <= zoom
    ensures zoom <= maxZoom ==>
      ZoomStep(zoom, scroll, dt, zoomSpeed, minZoom, maxZoom) ==
        (if zoom - dt * zoomSpeed < minZoom then minZoom else zoom - dt * zoomSpeed)
  {
  }

  /** A positive scroll never moves the target outward; from inside the range
      it lands exactly on `min(zoom + dt * zoomSpeed, maxZoom)`. */
  lemma ZoomInStep(zoom: real, scroll: real, dt: real, zoomSpeed: real, minZoom: real, maxZoom: real)
    requires scroll > 0.0 && dt >= 0.0 && zoomSpeed >= 0.0
    requires zoom <= maxZoom
    ensures ZoomStep(zoom, scroll, dt, zoomSpeed, minZoom, maxZoom) >= zoom
    ensures minZoom <= zoom ==>
      ZoomStep(zoom, scroll, dt, zoomSpeed, minZoom, maxZoom) ==
        (if zoom + dt * zoomSpeed > maxZoom then maxZoom else zoom + dt * zoomSpeed)
  {
  }

  /** One frame's zoom input. */
  datatype ZoomFrame = ZoomFrame(scroll: real, dt: real)

  /** The zoom target after a run of frames, each applying `ZoomStep`. It
      corresponds to repeating `Controller.LateUpdate`, whose contract gives
      `targetZoom == ZoomStep(old(targetZoom), ...)` for each frame;
      `ZoomAfterAppend` states that one more frame is one more `ZoomStep`. */
  function ZoomAfter(zoom: real, frames: seq<ZoomFrame>, zoomSpeed: real, minZoom: real, maxZoom: real): real
    decreases |frames|
  {
    if |frames| == 0 then zoom
    else ZoomAfter(ZoomStep(zoom, frames[0].scroll, frames[0].dt, zoomSpeed, minZoom, maxZoom),
                   frames[1..], zoomSpeed, minZoom, maxZoom)
  }

  /** One more frame is one more zoom step on the target the earlier frames
      left, as a further `LateUpdate` call gives. */
  lemma {:induction false} ZoomAfterAppend(zoom: real, frames: seq<ZoomFrame>, last: ZoomFrame, zoomSpeed: real, minZoom: real, maxZoom: real)
    ensures ZoomAfter(zoom, frames + [last], zoomSpeed, minZoom, maxZoom) ==
      ZoomStep(ZoomAfter(zoom, frames, zoomSpeed, minZoom, maxZoom), last.scroll, last.dt, zoomSpeed, minZoom, maxZoom)
    decreases |frames|
  {
    if |frames| > 0 {
      assert (frames + [last])[0] == frames[0];
      assert (frames + [last])[1..] == frames[1..] + [last];
      ZoomAfterAppend(ZoomStep(zoom, frames[0].scroll, frames[0].dt, zoomSpeed, minZoom, maxZoom),
                      frames[1..], last, zoomSpeed, minZoom, maxZoom);
    } else {
      assert frames + [last] == [last];
    }
  }

  /** Every later zoom target stays in range once the first one is. */
  lemma {:induction false} ZoomAfterKeepsRange(zoom: real, frames: seq<ZoomFrame>, zoomSpeed: real, minZoom: real, maxZoom: real)
    requires minZoom <= zoom <= maxZoom
    ensures minZoom <= ZoomAfter(zoom, frames, zoomSpeed, minZoom, maxZoom) <= maxZoom
    decreases |frames|
  {
    if |frames| > 0 {
      var next := ZoomStep(zoom, frames[0].scroll, frames[0].dt, zoomSpeed, minZoom, maxZoom);
      ZoomStepKeepsRange(zoom, frames[0].scroll, frames[0].dt, zoomSpeed, minZoom, maxZoom);
      ZoomAfterKeepsRange(next, frames[1..], zoomSpeed, minZoom, maxZoom);
    }
  }

  /** After any number of frames with a scroll at all, the target is in range,
      whatever it started from. */
  lemma {:induction false} ZoomAfterScrollEntersRange(zoom: real, frames: seq<ZoomFrame>, zoomSpeed: real, minZoom: real, maxZoom: real)
    requires minZoom <= maxZoom
    requires exists i :: 0 <= i < |frames| && !NearZero(frames[i].scroll)
    ensures minZoom <= ZoomAfter(zoom, frames, zoomSpeed, minZoom, maxZoom) <= maxZoom
    decreases |frames|
  {
    var next := ZoomStep(zoom, frames[0].scroll, frames[0].dt, zoomSpeed, minZoom, maxZoom);
    if !NearZero(frames[0].scroll) {
      ZoomAfterKeepsRange(next, frames[1..], zoomSpeed, minZoom, maxZoom);
    } else {
      var i :| 0 <= i < |frames| && !NearZero(frames[i].scroll);
      assert 0 < i;
      assert frames[1..][i - 1] == frames[i];
      ZoomAfterScrollEntersRange(next, frames[1..], zoomSpeed, minZoom, maxZoom);
    }
  }

  /** Frames without scroll leave the zoom target where it was. */
  lemma {:induction false} ZoomAfterIdle(zoom: real, frames: seq<ZoomFrame>, zoomSpeed: real, minZoom: real, maxZoom: real)
    requires forall i :: 0 <= i < |frames| ==> NearZero(frames[i].scroll)
    ensures ZoomAfter(zoom, frames, zoomSpeed, minZoom, maxZoom) == zoom
    decreases |frames|
  {
    if |frames| > 0 {
      assert forall i :: 0 <= i < |frames[1..]| ==> frames[1..][i] == frames[i + 1];
      ZoomAfterIdle(zoom, frames[1..], zoomSpeed, minZoom, maxZoom);
    }
  }

  /** Frames with zero elapsed time leave an in-range zoom target where it was. */
  lemma {:induction false} ZoomAfterFrozen(zoom: real, frames: seq<ZoomFrame>, zoomSpeed: real, minZoom: real, maxZoom: real)
    requires minZoom <= zoom <= maxZoom
    requires forall i :: 0 <= i < |frames| ==> frames[i].dt == 0.0
    ensures ZoomAfter(zoom, frames, zoomSpeed, minZoom, maxZoom) == zoom
    decreases |frames|
  {
    if |frames| > 0 {
      assert ZoomStep(zoom, frames[0].scroll, frames[0].dt, zoomSpeed, minZoom, maxZoom) == zoom;
      assert forall i :: 0 <= i < |frames[1..]| ==> frames[1..][i] == frames[i + 1];
      ZoomAfterFrozen(zoom, frames[1..], zoomSpeed, minZoom, maxZoom);
    }
  }

  /** Frames that all scroll outward never move the target inward. */
  lemma {:induction false} ZoomAfterZoomOut(zoom: real, frames: seq<ZoomFrame>, zoomSpeed: real, minZoom: real, maxZoom: real)
    requires minZoom <= maxZoom && minZoom <= zoom && zoomSpeed >= 0.0
    requires forall i :: 0 <= i < |frames| ==> frames[i].scroll < 0.0 && frames[i].dt >= 0.0
    ensures minZoom <= ZoomAfter(zoom, frames, zoomSpeed, minZoom, maxZoom) <= zoom
    decreases |frames|
  {
    if |frames| > 0 {
      var next := ZoomStep(zoom, frames[0].scroll, frames[0].dt, zoomSpeed, minZoom, maxZoom);
      ZoomOutStep(zoom, frames[0].scroll, frames[0].dt, zoomSpeed, minZoom, maxZoom);
      assert forall i :: 0 <= i < |frames[1..]| ==> frames[1..][i] == frames[i + 1];
      ZoomAfterZoomOut(next, frames[1..], zoomSpeed, minZoom, maxZoom);
    }
  }

  // ---------------------------------------------------------------------
  // Pitch derived from zoom
  // ---------------------------------------------------------------------

  /** The camera pitch the rig tilts toward: `-maxRotation` scaled by the zoom
      target's fraction of `maxZoom`, the fraction clamped into `[0, 1]`. */
  function TargetPitch(zoom: real, maxZoom: real, maxRotation: real): (p: real)
    requires maxZoom > 0.0
    ensures maxRotation >= 0.0 ==> -maxRotation <= p <= 0.0
  {
    var normRotation := Clamp(zoom / maxZoom, 0.0, 1.0);
    assert 0.0 <= normRotation <= 1.0;
    assert maxRotation >= 0.0 ==> 0.0 <= normRotation * maxRotation <= maxRotation by {
      if maxRotation >= 0.0 {
        assert (1.0 - normRotation) * maxRotation >= 0.0;
      }
    }
    normRotation * (-maxRotation)
  }

  /** No tilt while the zoom target is at or behind the rig's origin. */
  lemma TargetPitchFlat(zoom: real, maxZoom: real, maxRotation: real)
    requires maxZoom > 0.0 && zoom <= 0.0
    ensures TargetPitch(zoom, maxZoom, maxRotation) == 0.0
  {
  }

  /** Full tilt once the zoom target reaches `maxZoom`. */
  lemma TargetPitchFull(zoom: real, maxZoom: real, maxRotation: real)
    requires maxZoom > 0.0 && zoom >= maxZoom
    ensures TargetPitch(zoom, maxZoom, maxRotation) == -maxRotation
  {
  }

  /** Zooming in never tilts the camera less. */
  lemma TargetPitchMonotone(zoom1: real, zoom2: real, maxZoom: real, maxRotation: real)
    requires maxZoom > 0.0 && maxRotation >= 0.0 && zoom1 <= zoom2
    ensures TargetPitch(zoom2, maxZoom, maxRotation) <= TargetPitch(zoom1, maxZoom, maxRotation)
  {
  }

  // ---------------------------------------------------------------------
  // Position target
  // ---------------------------------------------------------------------

  /** The direction an edge component pans in: none when it is near zero,
      otherwise the component's sign. */
  function PanDirection(edge: real): real {
    if NearZero(edge) then 0.0 else if edge < 0.0 then -1.0 else 1.0
  }

  /** The position target after one frame: a move of `dt * speed` along
      `right` for a non-zero horizontal edge component and along `forward`
      for a non-zero vertical one, each signed by its component, then the
      height pinned to `height`. */
  function PanTarget(target: Vec3, edge: Vec2, right: Vec3, forward: Vec3, height: real, dt: real, speed: real): (r: Vec3)
    ensures r.y == height
  {
    PanAlong(PanAlong(target, edge.x, right.Scale(dt).Scale(speed)), edge.y, forward.Scale(dt).Scale(speed))
      .(y := height)
  }

  /** One axis of the pan step: add or subtract `move` by the sign of the
      edge component, or no move when it is near zero. */
  function PanAlong(p: Vec3, edge: real, move: Vec3): Vec3 {
    if NearZero(edge) then p
    else if edge < 0.0 then p.Sub(move)
    else p.Add(move)
  }

  /** One axis of the pan step as a signed multiple of the move. */
  lemma PanAlongByDirection(p: Vec3, edge: real, move: Vec3)
    ensures PanAlong(p, edge, move) == p.Add(move.Scale(PanDirection(edge)))
  {
  }

  /** The pan step in closed form: from the target, `dt * speed` along each
      axis vector, weighted by that axis's pan direction (-1, 0 or 1), and
      the height replaced. */
  lemma PanTargetClosedForm(target: Vec3, edge: Vec2, right: Vec3, forward: Vec3, height: real, dt: real, speed: real)
    ensures PanTarget(target, edge, right, forward, height, dt, speed) ==
      target.Add(right.Scale(dt * speed).Scale(PanDirection(edge.x)))
            .Add(forward.Scale(dt * speed).Scale(PanDirection(edge.y)))
            .(y := height)
  {
    var moveRight, moveForward := right.Scale(dt).Scale(speed), forward.Scale(dt).Scale(speed);
    ScaleTwice(right, dt, speed);
    ScaleTwice(forward, dt, speed);
    PanAlongByDirection(target, edge.x, moveRight);
    PanAlongByDirection(PanAlong(target, edge.x, moveRight), edge.y, moveForward);
  }

  /** With no edge input the target keeps its ground position. */
  lemma PanTargetStill(target: Vec3, edge: Vec2, right: Vec3, forward: Vec3, height: real, dt: real, speed: real)
    requires NearZero(edge.x) && NearZero(edge.y)
    ensures PanTarget(target, edge, right, forward, height, dt, speed) == target.(y := height)
  {
  }

  /** With a zero step (a zero elapsed time) the target keeps its ground
      position whatever the edge input. */
  lemma PanTargetFrozen(target: Vec3, edge: Vec2, right: Vec3, forward: Vec3, height: real, speed: real)
    ensures PanTarget(target, edge, right, forward, height, 0.0, speed) == target.(y := height)
  {
  }

  /** The pan direction an edge component produces, read off the cursor
      offset and the inner boundary. */
  lemma EdgeAxisDirection(offset: real, boundary: real)
    ensures PanDirection(EdgeAxis(offset, boundary)) ==
      if Abs(offset) <= boundary then 0.0 else if offset < 0.0 then -1.0 else 1.0
  {
  }

  /** The edge pan direction read off the cursor: none on either axis while
      rotating; otherwise an axis pans exactly when the cursor is beyond that
      axis's inner boundary, away from the centre on the side the cursor is
      on. With `PanTarget`'s contract this says where the target moves. */
  lemma EdgePanFollowsCursor(rotating: bool, mouse: Vec2, screenWidth: int, screenHeight: int, margin: int)
    ensures var e := MouseScreenEdge(rotating, mouse, screenWidth, screenHeight, margin);
      var ox, oy := CentreOffset(mouse.x, screenWidth), CentreOffset(mouse.y, screenHeight);
      PanDirection(e.x) ==
        (if rotating || Abs(ox) <= InnerBoundary(screenWidth, margin) then 0.0 else if ox < 0.0 then -1.0 else 1.0) &&
      PanDirection(e.y) ==
        (if rotating || Abs(oy) <= InnerBoundary(screenHeight, margin) then 0.0 else if oy < 0.0 then -1.0 else 1.0)
  {
  }
}
