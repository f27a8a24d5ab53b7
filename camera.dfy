/**
 * The mouse-driven orbit camera: the globals `yaw`, `pitch`, `lastX`,
 * `lastY`, `firstMouse`, `orbitRadius`, `cameraPos` and `cameraTarget`, as
 * the fields of one object, and the callbacks that update them. Mouse
 * motion turns the camera about its target, with the pitch held within
 * 30 degrees of level; the scroll wheel moves it nearer or farther, between
 * 1 and 100 units away.
 */
module Camera {
  import opened Vectors

  const Sensitivity := 0.1
  const PitchLimit := 30.0
  const MinZoom := 1.0
  const MaxZoom := 100.0

  /** The pitch after the callback's two checks: held to `[-30, 30]`, unchanged inside it. */
  function ClampPitch(p: real): (r: real)
    ensures -PitchLimit <= r <= PitchLimit
    ensures -PitchLimit <= p <= PitchLimit ==> r == p
    ensures p > PitchLimit ==> r == PitchLimit
    ensures p < -PitchLimit ==> r == -PitchLimit
  {
    if p > PitchLimit then PitchLimit else if p < -PitchLimit then -PitchLimit else p
  }

  /** The orbit radius after the scroll checks: held to `[1, 100]`, unchanged inside it. */
  function ClampZoom(z: real): (r: real)
    ensures MinZoom <= r <= MaxZoom
    ensures MinZoom <= z <= MaxZoom ==> r == z
    ensures z < MinZoom ==> r == MinZoom
    ensures z > MaxZoom ==> r == MaxZoom
  {
    if z < MinZoom then MinZoom else if z > MaxZoom then MaxZoom else z
  }

  /** `glm::radians`. */
  function Radians(degrees: real, pi: real): real {
    degrees * pi / 180.0
  }

  /**
   * The point at distance `radius` from `target` in the direction whose yaw
   * and pitch have the given cosines and sines.
   */
  function OrbitPoint(target: Vec3, radius: real, cosYaw: real, sinYaw: real, cosPitch: real, sinPitch: real): Vec3 {
    Vec3(target.x + radius * cosYaw * cosPitch,
         target.y + radius * sinPitch,
         target.z + radius * sinYaw * cosPitch)
  }

  /** Where the camera sits for the given yaw and pitch, in degrees. */
  function OrbitPosition(target: Vec3, radius: real, yaw: real, pitch: real, trig: Trig): Vec3 {
    var y := Radians(yaw, trig.pi);
    var p := Radians(pitch, trig.pi);
    OrbitPoint(target, radius, trig.cos(y), trig.sin(y), trig.cos(p), trig.sin(p))
  }

  /**
   * `OrbitPoint` written out. The callbacks compute the three coordinates
   * from the cosines and sines before building the vector; calling this with
   * those values lets the solver match the two without unfolding products
   * of function applications.
   */
  lemma OrbitPointCoordinates(target: Vec3, radius: real, cosYaw: real, sinYaw: real, cosPitch: real, sinPitch: real)
    ensures OrbitPoint(target, radius, cosYaw, sinYaw, cosPitch, sinPitch)
         == Vec3(target.x + radius * cosYaw * cosPitch, target.y + radius * sinPitch, target.z + radius * sinYaw * cosPitch)
  {
  }

  /**
   * Where sine and cosine obey Pythagoras, the camera is exactly `radius`
   * away from its target, whatever the yaw and pitch.
   */
  lemma OrbitDistance(target: Vec3, radius: real, yaw: real, pitch: real, trig: Trig)
    requires Pythagorean(trig)
    ensures DistSq(OrbitPosition(target, radius, yaw, pitch, trig), target) == radius * radius
  {
    var y := Radians(yaw, trig.pi);
    var p := Radians(pitch, trig.pi);
    OrbitPointDistance(target, radius, trig.cos(y), trig.sin(y), trig.cos(p), trig.sin(p));
  }

  lemma OrbitPointDistance(target: Vec3, radius: real, cy: real, sy: real, cp: real, sp: real)
    requires cy * cy + sy * sy == 1.0 && cp * cp + sp * sp == 1.0
    ensures DistSq(OrbitPoint(target, radius, cy, sy, cp, sp), target) == radius * radius
  {
    var a, b, c := radius * cy * cp, radius * sp, radius * sy * cp;
    var diff := Sub(OrbitPoint(target, radius, cy, sy, cp, sp), target);
    assert diff == Vec3(a, b, c);
    calc {
      a * a + b * b + c * c;
      radius * radius * (cp * cp * (cy * cy + sy * sy) + sp * sp);
      radius * radius * (cp * cp + sp * sp);
      radius * radius;
    }
  }

  class OrbitCamera {
    var yaw: real
    var pitch: real
    var lastX: real
    var lastY: real
    var firstMouse: bool
    var orbitRadius: real
    var cameraPos: Vec3
    var cameraTarget: Vec3

    /**
     * The globals' initial values: yaw -90, pitch 0, the cursor remembered
     * at the window centre, no motion seen yet, and the orbit radius the
     * distance from `cameraPos` to `cameraTarget` (the square root is a
     * parameter, `distance`). Both versions' starting distances, 60 and
     * `30 * sqrt 3`, lie within the zoom limits.
     */
    constructor (pos: Vec3, target: Vec3, width: int, height: int, distance: real)
      ensures yaw == -90.0 && pitch == 0.0 && firstMouse
      ensures lastX == width as real / 2.0 && lastY == height as real / 2.0
      ensures orbitRadius == distance && cameraPos == pos && cameraTarget == target
    {
      yaw := -90.0;
      pitch := 0.0;
      lastX := width as real / 2.0;
      lastY := height as real / 2.0;
      firstMouse := true;
      orbitRadius := distance;
      cameraPos := pos;
      cameraTarget := target;
    }

    /**
     * `mouse_callback(window, xpos, ypos)`. The first call only records the
     * cursor; after it, horizontal motion turns the yaw and vertical motion
     * the pitch by 0.1 degree per unit, the pitch is held to `[-30, 30]`, and
     * the camera moves onto its orbit at the new angles.
     */
    method MouseCallback(xpos: real, ypos: real, trig: Trig)
      modifies this
      ensures firstMouse == false && lastX == xpos && lastY == ypos
      ensures var x0 := if old(firstMouse) then xpos else old(lastX);
        yaw == old(yaw) + (xpos - x0) * Sensitivity
      ensures var y0 := if old(firstMouse) then ypos else old(lastY);
        pitch == ClampPitch(old(pitch) - (y0 - ypos) * Sensitivity)
      ensures old(firstMouse) ==> yaw == old(yaw)
      ensures -PitchLimit <= pitch <= PitchLimit
      ensures orbitRadius == old(orbitRadius) && cameraTarget == old(cameraTarget)
      ensures cameraPos == OrbitPosition(cameraTarget, orbitRadius, yaw, pitch, trig)
    {
      ghost var x0, y0 := if firstMouse then xpos else lastX, if firstMouse then ypos else lastY;
      if firstMouse {
        lastX := xpos;
        lastY := ypos;
        firstMouse := false;
      }
      assert lastX == x0 && lastY == y0;

      var xoffset := xpos - lastX;
      var yoffset := lastY - ypos; // screen y grows downwards
      lastX := xpos;
      lastY := ypos;

      var sensitivity := 0.1;
      xoffset := xoffset * sensitivity;
      yoffset := yoffset * sensitivity;

      yaw := yaw + xoffset;
      pitch := pitch - yoffset;
      ghost var unclamped := pitch;
      assert unclamped == old(pitch) - (y0 - ypos) * Sensitivity;

      if pitch > 30.0 {
        pitch := 30.0;
      }
      if pitch < -30.0 {
        pitch := -30.0;
      }
      assert pitch == ClampPitch(unclamped);

      // the same three lines as `updateCameraPosition`, written out again in the callback
      UpdateCameraPosition(trig);
    }

    /**
     * `scroll_callback` of the first version: the wheel's `yoffset` moves the
     * camera nearer (positive) or farther, held to `[1, 100]`; nothing else
     * changes.
     */
    method Zoom(yoffset: real)
      modifies this
      ensures orbitRadius == ClampZoom(old(orbitRadius) - yoffset)
      ensures MinZoom <= orbitRadius <= MaxZoom
      ensures yaw == old(yaw) && pitch == old(pitch) && lastX == old(lastX) && lastY == old(lastY)
      ensures firstMouse == old(firstMouse) && cameraPos == old(cameraPos) && cameraTarget == old(cameraTarget)
    {
      orbitRadius := orbitRadius - yoffset;
      if orbitRadius < 1.0 {
        orbitRadius := 1.0;
      }
      if orbitRadius > 100.0 {
        orbitRadius := 100.0;
      }
    }

    /** `updateCameraPosition`: put the camera on its orbit at the current yaw, pitch and radius. */
    method UpdateCameraPosition(trig: Trig)
      modifies this
      ensures cameraPos == OrbitPosition(cameraTarget, orbitRadius, yaw, pitch, trig)
      ensures yaw == old(yaw) && pitch == old(pitch) && lastX == old(lastX) && lastY == old(lastY)
      ensures firstMouse == old(firstMouse) && orbitRadius == old(orbitRadius) && cameraTarget == old(cameraTarget)
    {
      var cosYaw, sinYaw := trig.cos(Radians(yaw, trig.pi)), trig.sin(Radians(yaw, trig.pi));
      var cosPitch, sinPitch := trig.cos(Radians(pitch, trig.pi)), trig.sin(Radians(pitch, trig.pi));
      var cameraX := cameraTarget.x + orbitRadius * cosYaw * cosPitch;
      var cameraY := cameraTarget.y + orbitRadius * sinPitch;
      var cameraZ := cameraTarget.z + orbitRadius * sinYaw * cosPitch;
      OrbitPointCoordinates(cameraTarget, orbitRadius, cosYaw, sinYaw, cosPitch, sinPitch);

      cameraPos := Vec3(cameraX, cameraY, cameraZ);
    }

    /**
     * `scroll_callback` of the later version: the same zoom, after which the
     * camera moves onto its new orbit.
     */
    method ScrollCallback(yoffset: real, trig: Trig)
      modifies this
      ensures orbitRadius == ClampZoom(old(orbitRadius) - yoffset)
      ensures MinZoom <= orbitRadius <= MaxZoom
      ensures cameraPos == OrbitPosition(cameraTarget, orbitRadius, yaw, pitch, trig)
      ensures yaw == old(yaw) && pitch == old(pitch) && lastX == old(lastX) && lastY == old(lastY)
      ensures firstMouse == old(firstMouse) && cameraTarget == old(cameraTarget)
    {
      Zoom(yoffset);
      UpdateCameraPosition(trig);
    }
  }
}
