/** Three-component vectors over the reals, standing in for glm::vec3. */
module Vectors {
  datatype Vec3 = Vec3(x: real, y: real, z: real) {
    /** Component-wise sum. */
    function Plus(o: Vec3): Vec3 {
      Vec3(x + o.x, y + o.y, z + o.z)
    }

    /** Every component multiplied by `s`. */
    function Times(s: real): Vec3 {
      Vec3(x * s, y * s, z * s)
    }
  }

  const Zero: Vec3 := Vec3(0.0, 0.0, 0.0)
}
