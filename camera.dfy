/**
 * The single camera of the renderer: position, facing direction, pitch,
 * yaw and two velocities. Setters replace one field each, except yaw and
 * pitch, which accumulate; the look-at query derives the facing direction
 * from pitch and yaw and stores it as a side effect.
 *
 * The rotation-matrix constructors live in code that is not part of this
 * model, so the look-at query takes them as arguments.
 */
module Camera {
  import opened Vector
  import opened Matrix

  /** The canonical forward vector the look-at query starts from. */
  const Forward: Vec3 := Vec3(0.0, 0.0, 1.0)

  /**
   * The facing direction for a pitch and a yaw: the forward vector turned
   * by the pitch rotation first and by the yaw rotation second.
   */
  function LookDirection(pitch: real, yaw: real, rotationX: real -> Mat4, rotationY: real -> Mat4): Vec3 {
    Vec3FromVec4(MulVec4(rotationY(yaw), MulVec4(rotationX(pitch), Vec4FromVec3(Forward))))
  }

  class CameraState {
    var position: Vec3
    var direction: Vec3
    var forwardVelocity: Vec3
    var sidewaysVelocity: Vec3
    var pitch: real
    var yaw: real

    /** Position and direction as given, both velocities zero, pitch and yaw zero. */
    constructor Init(position: Vec3, direction: Vec3)
      ensures this.position == position && this.direction == direction
      ensures forwardVelocity == Vec3(0.0, 0.0, 0.0) && sidewaysVelocity == Vec3(0.0, 0.0, 0.0)
      ensures pitch == 0.0 && yaw == 0.0
    {
      this.position := position;
      this.direction := direction;
      forwardVelocity := Vec3(0.0, 0.0, 0.0);
      sidewaysVelocity := Vec3(0.0, 0.0, 0.0);
      pitch := 0.0;
      yaw := 0.0;
    }

    // Getters: each returns the current field and, being a method without a
    // modifies clause, leaves the camera as it was.

    method GetPosition() returns (p: Vec3)
      ensures p == position
    {
      p := position;
    }

    method GetDirection() returns (d: Vec3)
      ensures d == direction
    {
      d := direction;
    }

    method GetForwardVelocity() returns (v: Vec3)
      ensures v == forwardVelocity
    {
      v := forwardVelocity;
    }

    method GetSidewaysVelocity() returns (v: Vec3)
      ensures v == sidewaysVelocity
    {
      v := sidewaysVelocity;
    }

    method GetYaw() returns (a: real)
      ensures a == yaw
    {
      a := yaw;
    }

    method GetPitch() returns (a: real)
      ensures a == pitch
    {
      a := pitch;
    }

    // Setters: the modifies clause names the one field each may change.

    method UpdatePosition(position: Vec3)
      modifies this`position
      ensures this.position == position
    {
      this.position := position;
    }

    method UpdateDirection(direction: Vec3)
      modifies this`direction
      ensures this.direction == direction
    {
      this.direction := direction;
    }

    method UpdateForwardVelocity(velocity: Vec3)
      modifies this`forwardVelocity
      ensures forwardVelocity == velocity
    {
      forwardVelocity := velocity;
    }

    method UpdateSidewaysVelocity(velocity: Vec3)
      modifies this`sidewaysVelocity
      ensures sidewaysVelocity == velocity
    {
      sidewaysVelocity := velocity;
    }

    /** Yaw accumulates the delta. */
    method UpdateYaw(delta: real)
      modifies this`yaw
      ensures yaw == old(yaw) + delta
    {
      yaw := yaw + delta;
    }

    /** Pitch accumulates the delta. */
    method UpdatePitch(delta: real)
      modifies this`pitch
      ensures pitch == old(pitch) + delta
    {
      pitch := pitch + delta;
    }

    /**
     * Builds the rotation (yaw after pitch, both left-multiplied onto the
     * identity), turns the forward vector by it, stores the result as the
     * new direction and returns position + direction. Only the direction
     * changes.
     */
    method GetLookAtTarget(rotationX: real -> Mat4, rotationY: real -> Mat4) returns (target: Vec3)
      modifies this`direction
      ensures direction == LookDirection(pitch, yaw, rotationX, rotationY)
      ensures target == Vec3Add(position, direction)
    {
      var pitchRotation := rotationX(pitch);
      var yawRotation := rotationY(yaw);
      var rotation := Identity();
      rotation := MulMat4(pitchRotation, rotation);
      rotation := MulMat4(yawRotation, rotation);
      var cameraDirection := MulVec4(rotation, Vec4FromVec3(Forward));

      MulIdentity(pitchRotation);
      MulMat4Vec4(yawRotation, pitchRotation, Vec4FromVec3(Forward));
      direction := Vec3FromVec4(cameraDirection);

      target := Vec3Add(position, direction);
    }
  }

  /**
   * With the standard rotation matrices, the look direction is the forward
   * vector rotated about x by the pitch and then about y by the yaw.
   */
  lemma LookDirectionStandard(pitch: real, yaw: real, rotationX: real -> Mat4, rotationY: real -> Mat4,
                              sinPitch: real, cosPitch: real, sinYaw: real, cosYaw: real)
    requires rotationX(pitch) == RotationX(sinPitch, cosPitch)
    requires rotationY(yaw) == RotationY(sinYaw, cosYaw)
    ensures LookDirection(pitch, yaw, rotationX, rotationY)
            == Vec3RotateY(Vec3RotateX(Forward, sinPitch, cosPitch), sinYaw, cosYaw)
            == Vec3(-sinYaw * cosPitch, -sinPitch, cosYaw * cosPitch)
  {
    var afterPitch := MulVec4(RotationX(sinPitch, cosPitch), Vec4FromVec3(Forward));
    assert afterPitch == Vec4(0.0, -sinPitch, cosPitch, 1.0);
    var afterYaw := MulVec4(RotationY(sinYaw, cosYaw), afterPitch);
    assert afterYaw == Vec4(-sinYaw * cosPitch, -sinPitch, cosYaw * cosPitch, 1.0);
  }

  /** The look direction has unit length when the sines and cosines are those of real angles. */
  lemma LookDirectionUnit(pitch: real, yaw: real, rotationX: real -> Mat4, rotationY: real -> Mat4,
                          sinPitch: real, cosPitch: real, sinYaw: real, cosYaw: real)
    requires rotationX(pitch) == RotationX(sinPitch, cosPitch)
    requires rotationY(yaw) == RotationY(sinYaw, cosYaw)
    requires sinPitch * sinPitch + cosPitch * cosPitch == 1.0
    requires sinYaw * sinYaw + cosYaw * cosYaw == 1.0
    ensures Vec3Dot(LookDirection(pitch, yaw, rotationX, rotationY), LookDirection(pitch, yaw, rotationX, rotationY)) == 1.0
  {
    LookDirectionStandard(pitch, yaw, rotationX, rotationY, sinPitch, cosPitch, sinYaw, cosYaw);
    var d := Vec3(-sinYaw * cosPitch, -sinPitch, cosYaw * cosPitch);
    calc {
      Vec3Dot(d, d);
      (sinYaw * sinYaw + cosYaw * cosYaw) * (cosPitch * cosPitch) + sinPitch * sinPitch;
      cosPitch * cosPitch + sinPitch * sinPitch;
    }
  }
}
