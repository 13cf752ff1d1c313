/**
 * The parts of the physics engine the controller talks to: vectors, a transform's
 * position and forward axis, and the rigid bodies it picks up and throws.
 */
module Physics {

  datatype Vec3 = Vec3(x: real, y: real, z: real)

  const Zero := Vec3(0.0, 0.0, 0.0)

  function Add(a: Vec3, b: Vec3): Vec3
  {
    Vec3(a.x + b.x, a.y + b.y, a.z + b.z)
  }

  function Scale(v: Vec3, k: real): Vec3
  {
    Vec3(v.x * k, v.y * k, v.z * k)
  }

  /** Position and forward axis of a transform (the hold point). */
  datatype Pose = Pose(position: Vec3, forward: Vec3)

  /**
   * A rigid body in the scene. The controller toggles its gravity, zeroes its
   * velocities and requests impulses on it; the impulses are recorded in order,
   * the integrator that would turn them into motion is not part of the model.
   */
  class Body {
    var useGravity: bool
    var linearVelocity: Vec3
    var angularVelocity: Vec3
    var impulses: seq<Vec3>

    constructor (useGravity: bool, linearVelocity: Vec3, angularVelocity: Vec3)
      ensures this.useGravity == useGravity
      ensures this.linearVelocity == linearVelocity && this.angularVelocity == angularVelocity
      ensures impulses == []
    {
      this.useGravity := useGravity;
      this.linearVelocity := linearVelocity;
      this.angularVelocity := angularVelocity;
      impulses := [];
    }
  }
}
