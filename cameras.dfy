/**
 * The fly-through camera (include/camera.h, src/camera.cpp).
 *
 * The camera is a record updated in place by three input handlers; it is
 * modelled as a class whose whole state is read out by State(), and each
 * handler is verified against a pure step function on CameraState.  The
 * trigonometry and normalisation used by updateCameraVectors are not
 * interpreted: they are supplied as a MathLib record of function values.
 */
module Cameras {
  import opened Vectors

  /** Camera_Movement: the four keyboard directions, and no others. */
  datatype Movement = Forward | Backward | Left | Right

  // Default camera values.
  const DefaultYaw: real := 0.0
  const DefaultPitch: real := 0.0
  const DefaultSpeed: real := 2.5
  const DefaultSensitivity: real := 0.1
  const DefaultZoom: real := 90.0

  // Bounds applied by the input handlers.
  const MinZoom: real := 1.0
  const MaxZoom: real := 45.0
  const MaxPitch: real := 89.0

  const DefaultWorldUp: Vec3 := Vec3(0.0, 1.0, 0.0)
  /** The front vector every constructor writes before deriving the real one. */
  const InitialFront: Vec3 := Vec3(0.0, 0.0, -1.0)

  const Pi: real := 3.14159265359

  /** degree2Radian: the angle in radians, degree/180 of PI. */
  function Radians(degree: real): (r: real)
    ensures r * 180.0 == degree * Pi
  {
    degree * (1.0 / 180.0 * Pi)
  }

  /** The library functions updateCameraVectors calls; they are left uninterpreted. */
  datatype MathLib = MathLib(sin: real -> real, cos: real -> real, normalized: Vec3 -> Vec3)

  function Sin(lib: MathLib, x: real): real { lib.sin(x) }
  function Cos(lib: MathLib, x: real): real { lib.cos(x) }
  function Normalized(lib: MathLib, v: Vec3): Vec3 { lib.normalized(v) }

  datatype Basis = Basis(front: Vec3, right: Vec3, up: Vec3)

  /** The (not yet normalised) look direction for the Euler angles; raw yaw is measured from +z. */
  function EulerFront(lib: MathLib, yaw: real, pitch: real): (r: Vec3)
    ensures Cos(lib, Radians(pitch)) == 0.0 ==> r.x == 0.0 && r.z == 0.0
  {
    var yawFromZ := yaw - 180.0;
    Vec3(Sin(lib, Radians(yawFromZ)) * Cos(lib, Radians(pitch)),
         Sin(lib, Radians(pitch)),
         Cos(lib, Radians(yawFromZ)) * Cos(lib, Radians(pitch)))
  }

  /** The basis updateCameraVectors derives from yaw, pitch and world up. */
  function CameraVectors(lib: MathLib, yaw: real, pitch: real, worldUp: Vec3): (r: Basis)
    ensures r.right == Normalized(lib, Cross(r.front, worldUp))
    ensures r.up == Normalized(lib, Cross(r.right, r.front))
  {
    var front := Normalized(lib, EulerFront(lib, yaw, pitch));
    var right := Normalized(lib, Cross(front, worldUp));
    Basis(front, right, Normalized(lib, Cross(right, front)))
  }

  /**
   * With the true values of sine and cosine at 0 and -PI, and a normalisation
   * that leaves unit axis vectors alone, the camera at yaw 0 and pitch 0 under
   * world up +y looks down -z, with right +x and up +y.
   */
  lemma DefaultBasis(lib: MathLib)
    requires lib.sin(0.0) == 0.0 && lib.cos(0.0) == 1.0
    requires lib.sin(-Pi) == 0.0 && lib.cos(-Pi) == -1.0
    requires lib.normalized(InitialFront) == InitialFront
    requires lib.normalized(Vec3(1.0, 0.0, 0.0)) == Vec3(1.0, 0.0, 0.0)
    requires lib.normalized(DefaultWorldUp) == DefaultWorldUp
    ensures CameraVectors(lib, 0.0, 0.0, DefaultWorldUp) == Basis(InitialFront, Vec3(1.0, 0.0, 0.0), DefaultWorldUp)
  {
    assert Radians(-180.0) == -Pi;
    assert Radians(0.0) == 0.0;
    assert EulerFront(lib, 0.0, 0.0) == InitialFront;
    assert Cross(InitialFront, DefaultWorldUp) == Vec3(1.0, 0.0, 0.0);
    assert Cross(Vec3(1.0, 0.0, 0.0), InitialFront) == DefaultWorldUp;
  }

  /**
   * At pitch 90, with the true sine and cosine of PI/2, the front is straight
   * up whatever the yaw: parallel to the default world up, so that its cross
   * product with it vanishes.  This is the case the pitch clamp keeps away.
   */
  lemma StraightUpFront(lib: MathLib, yaw: real)
    requires lib.sin(Pi / 2.0) == 1.0 && lib.cos(Pi / 2.0) == 0.0
    ensures EulerFront(lib, yaw, 90.0) == DefaultWorldUp
    ensures Cross(EulerFront(lib, yaw, 90.0), DefaultWorldUp) == Vec3(0.0, 0.0, 0.0)
  {
    assert Radians(90.0) == Pi / 2.0;
  }

  /** Every field of a Camera. */
  datatype CameraState = CameraState(
    position: Vec3, front: Vec3, up: Vec3, right: Vec3, worldUp: Vec3,
    yaw: real, pitch: real,
    movementSpeed: real, mouseSensitivity: real, zoom: real)
  {
    function Vectors(): Basis {
      Basis(front, right, up)
    }

    /** front, right and up are the ones derived from the current yaw, pitch and world up. */
    predicate Derived(lib: MathLib) {
      Vectors() == CameraVectors(lib, yaw, pitch, worldUp)
    }
  }

  /** The effect of updateCameraVectors on the whole state. */
  function WithVectors(lib: MathLib, s: CameraState): (r: CameraState)
    ensures r.Derived(lib)
    ensures r.(front := s.front, right := s.right, up := s.up) == s
  {
    var b := CameraVectors(lib, s.yaw, s.pitch, s.worldUp);
    s.(front := b.front, right := b.right, up := b.up)
  }

  /**
   * The state every constructor leaves: the given pose taken verbatim (no pitch
   * clamp), the default options, and the derived vectors.
   */
  function Initial(lib: MathLib, position: Vec3, worldUp: Vec3, yaw: real, pitch: real): (s: CameraState)
    ensures s.position == position && s.worldUp == worldUp
    ensures s.yaw == yaw && s.pitch == pitch
    ensures s.movementSpeed == 2.5 && s.mouseSensitivity == 0.1 && s.zoom == 90.0
    ensures s.Derived(lib)
  {
    WithVectors(lib, CameraState(position, InitialFront, Zero3, Zero3, worldUp, yaw, pitch,
                                 DefaultSpeed, DefaultSensitivity, DefaultZoom))
  }

  /** The distance covered in deltaTime at the given speed. */
  function Velocity(speed: real, deltaTime: real): (r: real)
    ensures deltaTime == 0.0 ==> r == 0.0
    ensures 0.0 <= speed && 0.0 <= deltaTime ==> 0.0 <= r
  {
    speed * deltaTime
  }

  /** processKeyboard: move along the front or right vector by speed times elapsed time. */
  function Keyboard(s: CameraState, direction: Movement, deltaTime: real): (r: CameraState)
    ensures r == s.(position := r.position)
    ensures var v := Velocity(s.movementSpeed, deltaTime);
      Sub(r.position, s.position) ==
        match direction
        case Forward => Scale(s.front, v)
        case Backward => Scale(s.front, -v)
        case Left => Scale(s.right, -v)
        case Right => Scale(s.right, v)
  {
    var velocity := Velocity(s.movementSpeed, deltaTime);
    match direction
    case Forward => s.(position := Add(s.position, Scale(s.front, velocity)))
    case Backward => s.(position := Sub(s.position, Scale(s.front, velocity)))
    case Left => s.(position := Sub(s.position, Scale(s.right, velocity)))
    case Right => s.(position := Add(s.position, Scale(s.right, velocity)))
  }

  /** The pitch clamp of processMouseMovement, applied only when constrainPitch is set. */
  function ConstrainPitch(pitch: real, constrainPitch: bool): (r: real)
    ensures constrainPitch ==> -MaxPitch <= r <= MaxPitch
    ensures constrainPitch && -MaxPitch <= pitch <= MaxPitch ==> r == pitch
    ensures constrainPitch && pitch > MaxPitch ==> r == MaxPitch
    ensures constrainPitch && pitch < -MaxPitch ==> r == -MaxPitch
    ensures !constrainPitch ==> r == pitch
  {
    if !constrainPitch then pitch
    else
      var p := if pitch > MaxPitch then MaxPitch else pitch;
      if p < -MaxPitch then -MaxPitch else p
  }

  /** A mouse offset multiplied by the sensitivity. */
  function Scaled(offset: real, sensitivity: real): (r: real)
    ensures offset == 0.0 ==> r == 0.0
    ensures 0.0 < sensitivity ==> (0.0 < r <==> 0.0 < offset) && (r < 0.0 <==> offset < 0.0)
  {
    offset * sensitivity
  }

  /**
   * processMouseMovement: both offsets are scaled by the sensitivity, yaw turns
   * clockwise for a rightward offset and is never clamped, pitch is clamped on
   * request, and the basis is derived again.
   */
  function MouseMove(lib: MathLib, s: CameraState, xOffset: real, yOffset: real, constrainPitch: bool): (r: CameraState)
    ensures r.yaw == s.yaw - s.mouseSensitivity * xOffset
    ensures r.pitch == ConstrainPitch(s.pitch + s.mouseSensitivity * yOffset, constrainPitch)
    ensures constrainPitch ==> -MaxPitch <= r.pitch <= MaxPitch
    ensures !constrainPitch ==> r.pitch == s.pitch + s.mouseSensitivity * yOffset
    ensures r.Derived(lib)
    ensures r.(front := s.front, right := s.right, up := s.up, yaw := s.yaw, pitch := s.pitch) == s
  {
    var x := Scaled(xOffset, s.mouseSensitivity);
    var y := Scaled(yOffset, s.mouseSensitivity);
    WithVectors(lib, s.(yaw := s.yaw - x, pitch := ConstrainPitch(s.pitch + y, constrainPitch)))
  }

  /** processMouseScroll: zoom moves against the wheel and saturates to [1, 45]. */
  function Scroll(s: CameraState, yOffset: real): (r: CameraState)
    ensures MinZoom <= r.zoom <= MaxZoom
    ensures MinZoom <= s.zoom - yOffset <= MaxZoom ==> r.zoom == s.zoom - yOffset
    ensures s.zoom - yOffset < MinZoom ==> r.zoom == MinZoom
    ensures s.zoom - yOffset > MaxZoom ==> r.zoom == MaxZoom
    ensures r == s.(zoom := r.zoom)
  {
    var z := s.zoom - yOffset;
    var z' := if z < MinZoom then MinZoom else z;
    s.(zoom := if z' > MaxZoom then MaxZoom else z')
  }

  /** Moving forward then backward (or left then right) for the same time returns to the start. */
  lemma KeyboardInverse(s: CameraState, deltaTime: real)
    ensures Keyboard(Keyboard(s, Forward, deltaTime), Backward, deltaTime) == s
    ensures Keyboard(Keyboard(s, Backward, deltaTime), Forward, deltaTime) == s
    ensures Keyboard(Keyboard(s, Left, deltaTime), Right, deltaTime) == s
    ensures Keyboard(Keyboard(s, Right, deltaTime), Left, deltaTime) == s
  {
  }

  /** Without the clamp, a mouse movement and its opposite restore yaw, pitch and the basis. */
  lemma MouseMoveInverse(lib: MathLib, s: CameraState, xOffset: real, yOffset: real)
    requires s.Derived(lib)
    ensures MouseMove(lib, MouseMove(lib, s, xOffset, yOffset, false), -xOffset, -yOffset, false) == s
  {
    var k := s.mouseSensitivity;
    var moved := MouseMove(lib, s, xOffset, yOffset, false);
    var back := MouseMove(lib, moved, -xOffset, -yOffset, false);
    assert k * -xOffset == -(k * xOffset) && k * -yOffset == -(k * yOffset);
    assert back.yaw == s.yaw && back.pitch == s.pitch;
    assert back.Vectors() == s.Vectors();
  }

  /**
   * The default zoom of 90 lies outside the scroll range [1, 45], so the first
   * scroll never keeps it: a downward or small upward wheel step snaps to 45,
   * and only a step above 45 lands inside the range.
   */
  lemma FirstScrollFromDefault(lib: MathLib, position: Vec3, worldUp: Vec3, yaw: real, pitch: real, yOffset: real)
    ensures Initial(lib, position, worldUp, yaw, pitch).zoom > MaxZoom
    ensures var z := Scroll(Initial(lib, position, worldUp, yaw, pitch), yOffset).zoom;
      z == (if yOffset <= DefaultZoom - MaxZoom then MaxZoom
            else if yOffset > DefaultZoom - MinZoom then MinZoom
            else DefaultZoom - yOffset)
  {
  }

  /** Scrolling is bounded: after any sequence of wheel steps zoom stays in [1, 45]. */
  function ScrollAll(s: CameraState, offsets: seq<real>): (r: CameraState)
    ensures offsets != [] ==> MinZoom <= r.zoom <= MaxZoom
    ensures r == s.(zoom := r.zoom)
  {
    if offsets == [] then s else Scroll(ScrollAll(s, offsets[..|offsets| - 1]), offsets[|offsets| - 1])
  }

  class Camera {
    const lib: MathLib

    // Extrinsics
    var position: Vec3
    var front: Vec3
    var up: Vec3
    var right: Vec3
    var worldUp: Vec3
    var yaw: real
    var pitch: real

    // Camera options
    var movementSpeed: real
    var mouseSensitivity: real
    var zoom: real

    ghost function State(): CameraState
      reads this
    {
      CameraState(position, front, up, right, worldUp, yaw, pitch, movementSpeed, mouseSensitivity, zoom)
    }

    /** The default constructor: at the origin, y up, yaw and pitch 0. */
    constructor Default(lib: MathLib)
      ensures this.lib == lib
      ensures State() == Initial(lib, Zero3, DefaultWorldUp, DefaultYaw, DefaultPitch)
    {
      this.lib := lib;
      position := Zero3;
      worldUp := DefaultWorldUp;
      front := InitialFront;
      yaw := DefaultYaw;
      pitch := DefaultPitch;
      movementSpeed := DefaultSpeed;
      mouseSensitivity := DefaultSensitivity;
      zoom := DefaultZoom;
      new;
      UpdateCameraVectors();
    }

    /** The constructor with vectors: the pose is stored verbatim. */
    constructor FromVectors(lib: MathLib, position: Vec3, up: Vec3, yaw: real, pitch: real)
      ensures this.lib == lib
      ensures State() == Initial(lib, position, up, yaw, pitch)
    {
      this.lib := lib;
      front := InitialFront;
      movementSpeed := DefaultSpeed;
      mouseSensitivity := DefaultSensitivity;
      zoom := DefaultZoom;
      this.position := position;
      worldUp := up;
      this.yaw := yaw;
      this.pitch := pitch;
      new;
      UpdateCameraVectors();
    }

    /** The constructor with scalars: the same camera as FromVectors on the assembled vectors. */
    constructor FromScalars(lib: MathLib, posX: real, posY: real, posZ: real,
                            upX: real, upY: real, upZ: real, yaw: real, pitch: real)
      ensures this.lib == lib
      ensures State() == Initial(lib, Vec3(posX, posY, posZ), Vec3(upX, upY, upZ), yaw, pitch)
    {
      this.lib := lib;
      front := InitialFront;
      movementSpeed := DefaultSpeed;
      mouseSensitivity := DefaultSensitivity;
      zoom := DefaultZoom;
      position := Vec3(posX, posY, posZ);
      worldUp := Vec3(upX, upY, upZ);
      this.yaw := yaw;
      this.pitch := pitch;
      new;
      UpdateCameraVectors();
    }

    method ProcessKeyboard(direction: Movement, deltaTime: real)
      modifies this
      ensures State() == Keyboard(old(State()), direction, deltaTime)
    {
      var velocity := Velocity(movementSpeed, deltaTime);
      if direction == Forward {
        position := Add(position, Scale(front, velocity));
      }
      if direction == Backward {
        position := Sub(position, Scale(front, velocity));
      }
      if direction == Left {
        position := Sub(position, Scale(right, velocity));
      }
      if direction == Right {
        position := Add(position, Scale(right, velocity));
      }
    }

    method ProcessMouseMovement(xOffset: real, yOffset: real, constrainPitch: bool := true)
      modifies this
      ensures State() == MouseMove(lib, old(State()), xOffset, yOffset, constrainPitch)
    {
      var x := Scaled(xOffset, mouseSensitivity);
      var y := Scaled(yOffset, mouseSensitivity);

      yaw := yaw - x;  // a rightward (clockwise) movement decreases yaw
      pitch := pitch + y;

      if constrainPitch {
        if pitch > MaxPitch {
          pitch := MaxPitch;
        }
        if pitch < -MaxPitch {
          pitch := -MaxPitch;
        }
      }

      UpdateCameraVectors();
    }

    method ProcessMouseScroll(yOffset: real)
      modifies this
      ensures State() == Scroll(old(State()), yOffset)
    {
      zoom := zoom - yOffset;
      if zoom < MinZoom {
        zoom := MinZoom;
      }
      if zoom > MaxZoom {
        zoom := MaxZoom;
      }
    }

    /** Derives front, right and up from yaw, pitch and world up; nothing else changes. */
    method UpdateCameraVectors()
      modifies this
      ensures State() == WithVectors(lib, old(State()))
    {
      front := EulerFront(lib, yaw, pitch);
      front := Normalized(lib, front);

      right := Normalized(lib, Cross(front, worldUp));
      up := Normalized(lib, Cross(right, front));
    }
  }
}
