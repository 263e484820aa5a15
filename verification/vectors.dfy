/** Three-component vectors, as built with `vec3.fromValues` in guitools.js. */
module Vectors {

  datatype Vec3 = Vec3(x: real, y: real, z: real)

  /** Positional access `v[j]` to the component `j` of a vector. */
  function Comp(v: Vec3, j: nat): real
    requires j < 3
  {
    if j == 0 then v.x else if j == 1 then v.y else v.z
  }

  /** The pixel point `vec3.fromValues(X, Y, 0)` of a click on the canvas. */
  function Pixel(X: real, Y: real): Vec3
  {
    Vec3(X, Y, 0.0)
  }
}
