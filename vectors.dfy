/**
 * Two- and three-component vectors of the engine's math library. The source
 * uses 32-bit floats; here every component is an exact `real`.
 */
module Vectors {
  datatype Vec2 = Vec2(x: real, y: real)
  datatype Vec3 = Vec3(x: real, y: real, z: real)

  /** The first two components of a `Vec3` (the engine's `xy()` swizzle). */
  function XY(v: Vec3): Vec2 {
    Vec2(v.x, v.y)
  }
}
