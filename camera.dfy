/**
 * The free-fly camera: keyboard movement along its basis vectors, mouse-look
 * with a first-sample rule, the pitch clamp and yaw wrap, and the zoom rule.
 */
module Cameras {
  import opened Geometry

  datatype Move = Forward | Backward | Left | Right | Up | Down

  /** The basis vector a key moves along, and whether it moves with (+1) or against (-1) it. */
  function MoveAxis(direction: Move, forward: Vec3, right: Vec3, worldUp: Vec3): (Vec3, real)
  {
    match direction
    case Forward => (forward, 1.0)
    case Backward => (forward, -1.0)
    case Left => (right, -1.0)
    case Right => (right, 1.0)
    case Up => (worldUp, 1.0)
    case Down => (worldUp, -1.0)
  }

  /** The position after one key press: speed times the axis times the frame time, added or taken away. */
  function Stepped(position: Vec3, direction: Move, speed: real, forward: Vec3, right: Vec3, worldUp: Vec3, dt: real): Vec3
  {
    var (axis, sign) := MoveAxis(direction, forward, right, worldUp);
    var delta := Scale(Scale(axis, speed), dt);
    if sign > 0.0 then Add(position, delta) else Sub(position, delta)
  }

  function Opposite(direction: Move): Move
  {
    match direction
    case Forward => Backward
    case Backward => Forward
    case Left => Right
    case Right => Left
    case Up => Down
    case Down => Up
  }

  /** A key press followed by its opposite with the same frame time returns to the start. */
  lemma OppositeStepsCancel(position: Vec3, direction: Move, speed: real, forward: Vec3, right: Vec3, worldUp: Vec3, dt: real)
    ensures var p := Stepped(position, direction, speed, forward, right, worldUp, dt);
      Stepped(p, Opposite(direction), speed, forward, right, worldUp, dt) == position
  {
  }

  /** The rotation after a mouse sample: pitch follows upward motion, yaw rightward motion. */
  function Turned(rotation: Vec3, lastX: real, lastY: real, x: real, y: real, sensitivity: real): Vec3
  {
    Vec3(rotation.x + (lastY - y) * sensitivity, rotation.y + (x - lastX) * sensitivity, rotation.z)
  }

  /**
   * Two samples in a row turn the camera as one sample over the combined cursor
   * motion would: the rotation depends only on where the cursor started and ended.
   */
  lemma TurnsCompose(rotation: Vec3, x0: real, y0: real, x1: real, y1: real, x2: real, y2: real, s: real)
    ensures Turned(Turned(rotation, x0, y0, x1, y1, s), x1, y1, x2, y2, s) == Turned(rotation, x0, y0, x2, y2, s)
  {
    assert (y0 - y1) * s + (y1 - y2) * s == (y0 - y2) * s;
    assert (x1 - x0) * s + (x2 - x1) * s == (x2 - x0) * s;
  }

  /** A sample where the cursor has not moved does not turn the camera. */
  lemma StillCursorNoTurn(rotation: Vec3, x: real, y: real, s: real)
    ensures Turned(rotation, x, y, x, y, s) == rotation
  {
  }

  /** Pitch is held inside [-89, 89] degrees. */
  function ClampPitch(pitch: real): (r: real)
    ensures -89.0 <= r <= 89.0
    ensures -89.0 <= pitch <= 89.0 ==> r == pitch
    ensures pitch > 89.0 ==> r == 89.0
    ensures pitch < -89.0 ==> r == -89.0
  {
    if pitch > 89.0 then 89.0 else if pitch < -89.0 then -89.0 else pitch
  }

  /** FLT_MIN, the smallest positive normal float: 2^-126. */
  const FltMin: real := 0.0000000000000000000000000000000000000117549435082228750796873653722224567781866555677208752150875170627841725945472717285156250

  /**
   * The yaw wrap as intended: 360 or more restarts at 0, a negative yaw restarts
   * just below 360, anything else is kept.
   */
  function WrapYaw(yaw: real): (r: real)
    ensures 0.0 <= r < 360.0
    ensures yaw >= 360.0 ==> r == 0.0
    ensures yaw < 0.0 ==> 359.0 < r < 360.0
    ensures 0.0 <= yaw < 360.0 ==> r == yaw
  {
    if yaw >= 360.0 then 0.0 else if yaw < 0.0 then 360.0 - FltMin else yaw
  }

  /** Floats between 256 and 512 lie 2^-15 apart. */
  const FloatSpacingNear360: real := 1.0 / 32768.0

  /** Round to the nearest multiple of `spacing` (ties upward), as float arithmetic does on that grid. */
  function RoundToSpacing(x: real, spacing: real): real
    requires spacing > 0.0
  {
    ((x / spacing + 0.5).Floor as real) * spacing
  }

  /**
   * The yaw wrap as written, in single precision: 360.0f - FLT_MIN is computed in
   * float, and the nearest float to that difference is 360 itself.
   */
  function WrapYawAsWritten(yaw: real): real
  {
    if yaw >= 360.0 then 0.0
    else if yaw < 0.0 then RoundToSpacing(360.0 - FltMin, FloatSpacingNear360)
    else yaw
  }

  /** In float, a negative yaw wraps to exactly 360, outside [0, 360). */
  lemma WrapYawAsWrittenReaches360()
    ensures WrapYawAsWritten(-1.0) == 360.0
    ensures !(WrapYawAsWritten(-1.0) < 360.0)
  {
    var q := (360.0 - FltMin) / FloatSpacingNear360 + 0.5;
    assert q == 11796480.5 - FltMin * 32768.0;
    assert 11796480.0 <= q < 11796481.0;
    assert q.Floor == 11796480;
  }

  /** The zoom rule: below 1 it is reset to 1, above 45 to 45, otherwise the scroll is taken off. */
  function Scrolled(zoom: real, yoffset: real): real
  {
    if zoom < 1.0 then 1.0 else if zoom > 45.0 then 45.0 else zoom - yoffset
  }

  /**
   * The zoom is not clamped after the scroll is applied, so it can leave [1, 45];
   * but it never stays outside for two scrolls in a row: the next one resets it
   * to the bound it crossed.
   */
  lemma ScrollReturnsToRange(zoom: real, y1: real, y2: real)
    ensures var z1 := Scrolled(zoom, y1);
      && (1.0 <= zoom <= 45.0 ==> z1 == zoom - y1)
      && (z1 < 1.0 ==> Scrolled(z1, y2) == 1.0)
      && (z1 > 45.0 ==> Scrolled(z1, y2) == 45.0)
      && (!(1.0 <= zoom <= 45.0) ==> z1 == 1.0 || z1 == 45.0)
  {
  }

  class Camera {
    var zoom: real
    var speed: real
    var position: Vec3
    var rotation: Vec3
    var forward: Vec3
    var up: Vec3
    var right: Vec3
    var worldUp: Vec3
    var lastX: real
    var lastY: real
    var sensitivity: real
    var firstActivation: bool

    /** Starts at the origin, unrotated, looking along +X with +Z to the right; zoom is left unset. */
    constructor (speed: real, sensitivity: real)
      ensures this.speed == speed && this.sensitivity == sensitivity
      ensures position == Zero3 && rotation == Zero3
      ensures forward == Vec3(1.0, 0.0, 0.0) && up == Vec3(0.0, 1.0, 0.0)
      ensures right == Vec3(0.0, 0.0, 1.0) && worldUp == Vec3(0.0, 1.0, 0.0)
      ensures lastX == 0.0 && lastY == 0.0 && firstActivation
    {
      this.speed := speed;
      this.sensitivity := sensitivity;
      position := Zero3;
      rotation := Zero3;
      forward := Vec3(1.0, 0.0, 0.0);
      up := Vec3(0.0, 1.0, 0.0);
      right := Vec3(0.0, 0.0, 1.0);
      worldUp := Vec3(0.0, 1.0, 0.0);
      lastX := 0.0;
      lastY := 0.0;
      firstActivation := true;
    }

    /** Moves the position along the key's axis; nothing else changes. */
    method GetKeyboardInput(direction: Move, dt: real)
      modifies this`position
      ensures position == Stepped(old(position), direction, speed, forward, right, worldUp, dt)
    {
      match direction {
        case Forward => position := Add(position, Scale(Scale(forward, speed), dt));
        case Backward => position := Sub(position, Scale(Scale(forward, speed), dt));
        case Left => position := Sub(position, Scale(Scale(right, speed), dt));
        case Right => position := Add(position, Scale(Scale(right, speed), dt));
        case Up => position := Add(position, Scale(Scale(worldUp, speed), dt));
        case Down => position := Sub(position, Scale(Scale(worldUp, speed), dt));
      }
    }

    /**
     * One cursor sample (x, y). The first sample only records the cursor, so it
     * turns nothing; later samples turn by the motion since the previous one.
     */
    method GetMouseInput(x: real, y: real)
      modifies this`lastX, this`lastY, this`firstActivation, this`rotation
      ensures lastX == x && lastY == y && !firstActivation
      ensures old(firstActivation) ==> rotation == old(rotation)
      ensures !old(firstActivation) ==> rotation == Turned(old(rotation), old(lastX), old(lastY), x, y, sensitivity)
    {
      if firstActivation {
        lastX := x;
        lastY := y;
        firstActivation := false;
      }
      var xoffset := x - lastX;
      var yoffset := lastY - y;
      lastX := x;
      lastY := y;
      xoffset := xoffset * sensitivity;
      yoffset := yoffset * sensitivity;
      rotation := Vec3(rotation.x + yoffset, rotation.y + xoffset, rotation.z);
    }

    /** The clamp and wrap part of UpdateForwardVector: pitch into [-89, 89], yaw into [0, 360). */
    method UpdateForwardVector()
      modifies this`rotation
      ensures rotation == Vec3(ClampPitch(old(rotation.x)), WrapYaw(old(rotation.y)), old(rotation.z))
      ensures -89.0 <= rotation.x <= 89.0 && 0.0 <= rotation.y < 360.0
    {
      var pitch := rotation.x;
      if pitch > 89.0 {
        pitch := 89.0;
      } else if pitch < -89.0 {
        pitch := -89.0;
      }
      var yaw := rotation.y;
      if yaw >= 360.0 {
        yaw := 0.0;
      } else if yaw < 0.0 {
        yaw := 360.0 - FltMin;
      }
      rotation := Vec3(pitch, yaw, rotation.z);
    }

    method GetMouseScroll(xoffset: real, yoffset: real)
      modifies this`zoom
      ensures zoom == Scrolled(old(zoom), yoffset)
    {
      if zoom < 1.0 {
        zoom := 1.0;
      } else if zoom > 45.0 {
        zoom := 45.0;
      } else {
        zoom := zoom - yoffset;
      }
    }
  }
}
