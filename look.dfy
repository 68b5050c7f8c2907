/**
 * The first-person look (FirstPersonLook.cs): camera pitch within limits,
 * body yaw kept near one turn, zoom field of view, and the forces that
 * footsteps add to the camera spring.
 */
module Look {
  import opened Types

  /** One wrap step each way: below -360 a turn is added, then above 360 a turn is taken off. */
  function WrapYaw(y: real): (r: real)
    ensures r == y || r == y + 360.0 || r == y - 360.0
    ensures -360.0 <= y <= 360.0 ==> r == y
    ensures -720.0 <= y <= 720.0 ==> -360.0 <= r <= 360.0
  {
    var y := if y < -360.0 then y + 360.0 else y;
    if y > 360.0 then y - 360.0 else y
  }

  /** The field of view the camera moves towards. */
  function FovTarget(zoomed: bool, fov: real, zoomFov: real): real
  {
    if zoomed then zoomFov else fov
  }

  /**
   * The force a footstep adds to the camera spring: the bobbing's x
   * negated, its y pointing one way for the left foot and the other for the
   * right, nothing on z.
   */
  function FootstepForce(bobbing: Vec2, foot: Foot): (r: Vec3)
    ensures r.x == -bobbing.x && r.z == 0.0
    ensures foot == LeftFoot ==> r.y == -bobbing.y
    ensures foot == RightFoot ==> r.y == bobbing.y
  {
    var dir := if foot == LeftFoot then -1.0 else 1.0;
    Vec3(-bobbing.x, bobbing.y * dir, 0.0)
  }

  /** The two feet bob the camera symmetrically. */
  lemma FootstepsMirror(bobbing: Vec2)
    ensures FootstepForce(bobbing, LeftFoot).y == -FootstepForce(bobbing, RightFoot).y
    ensures FootstepForce(bobbing, LeftFoot).x == FootstepForce(bobbing, RightFoot).x
  {
  }

  class FirstPersonLook {
    const minRotation: real
    const maxRotation: real
    const fov: real
    const zoomFov: real
    const fovLerpFactor: real
    /** The camera pitch (euler x-angle). */
    var pitch: real
    /** The body's euler y-angle as last written; Unity would read it back normalised to [0, 360). */
    var yaw: real
    var cameraFov: real

    constructor (yaw: real, cameraFov: real)
      ensures minRotation == -45.0 && maxRotation == 45.0 && fov == 75.0 && zoomFov == 45.0 && fovLerpFactor == 25.0
      ensures pitch == 0.0 && this.yaw == yaw && this.cameraFov == cameraFov
      ensures Valid()
    {
      minRotation := -45.0;
      maxRotation := 45.0;
      fov := 75.0;
      zoomFov := 45.0;
      fovLerpFactor := 25.0;
      pitch := 0.0;
      this.yaw := yaw;
      this.cameraFov := cameraFov;
    }

    /** The pitch stays within the look limits. */
    ghost predicate Valid()
      reads this
    {
      minRotation <= maxRotation ==> minRotation <= pitch <= maxRotation
    }

    /**
     * The per-frame update: the look input's y lowers the pitch, clamped to
     * the limits; its x turns the body, wrapped; the field of view moves
     * towards the zoom or normal value without overshooting.
     */
    method Update(lookInput: Vec2, zoomed: bool, deltaTime: real)
      requires Valid()
      modifies this`pitch, this`yaw, this`cameraFov
      ensures Valid()
      ensures pitch == Clamp(old(pitch) - lookInput.y, minRotation, maxRotation)
      ensures yaw == WrapYaw(old(yaw) + lookInput.x)
      ensures cameraFov == Lerp(old(cameraFov), FovTarget(zoomed, fov, zoomFov), fovLerpFactor * deltaTime)
    {
      pitch := Clamp(pitch - lookInput.y, minRotation, maxRotation);
      yaw := WrapYaw(yaw + lookInput.x);
      cameraFov := Lerp(cameraFov, FovTarget(zoomed, fov, zoomFov), fovLerpFactor * deltaTime);
    }

    /** The camera-recoil handler: the recoil's x raises the pitch, clamped; its y turns the body, wrapped. */
    method OnRecoil(recoil: Vec2)
      requires Valid()
      modifies this`pitch, this`yaw
      ensures Valid()
      ensures pitch == Clamp(old(pitch) + recoil.x, minRotation, maxRotation)
      ensures yaw == WrapYaw(old(yaw) + recoil.y)
    {
      pitch := Clamp(pitch + recoil.x, minRotation, maxRotation);
      yaw := WrapYaw(yaw + recoil.y);
    }
  }
}
