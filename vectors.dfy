/**
 * The two- and three-component vectors of the game's math library, over
 * `real` in place of `f32`.
 */
module Vectors {

  datatype Vec2 = Vec2(x: real, y: real) {

    function Add(o: Vec2): Vec2 { Vec2(x + o.x, y + o.y) }

    function Sub(o: Vec2): Vec2 { Vec2(x - o.x, y - o.y) }

    function Scale(k: real): Vec2 { Vec2(k * x, k * y) }

    /** `v / 2.0`, componentwise. */
    function Half(): Vec2 { Vec2(x / 2.0, y / 2.0) }

    /** `v.extend(z)` */
    function Extend(z: real): Vec3 { Vec3(x, y, z) }
  }

  datatype Vec3 = Vec3(x: real, y: real, z: real) {

    /** `v.truncate()`: drops the z component. */
    function Truncate(): Vec2 { Vec2(x, y) }
  }

  const Zero: Vec2 := Vec2(0.0, 0.0)
}
