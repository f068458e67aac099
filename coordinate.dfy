/**
 * Grid cells in world array space (origin top-left, y pointing down) and
 * their conversions from and to continuous positions
 * (src/gameplay/environment/coordinate.rs).
 *
 * The fields are `i32`; Rust's float-to-int `as` casts saturate at the ends of
 * that range, which SaturateI32 writes out.
 */
module Coordinates {
  import opened Vectors

  const I32Min: int := -0x8000_0000
  const I32Max: int := 0x7fff_ffff

  type I32 = n: int | I32Min <= n <= I32Max

  /** A real whose integer part fits an `i32`, so that a cast does not saturate. */
  predicate InI32Range(r: real) {
    I32Min as real <= r < I32Max as real + 1.0
  }

  /** `as i32` applied to an integer-valued float: clamps to the `i32` range. */
  function SaturateI32(n: int): (r: I32)
    ensures I32Min <= n <= I32Max ==> r == n
    ensures n < I32Min ==> r == I32Min
    ensures n > I32Max ==> r == I32Max
  {
    if n < I32Min then I32Min else if n > I32Max then I32Max else n
  }

  /** `f32::round`: to the nearest integer, halves away from zero. */
  function RoundHalfAwayFromZero(r: real): (n: int)
    ensures -0.5 <= r - n as real <= 0.5
    ensures r - n as real == 0.5 ==> r < 0.0
    ensures n as real - r == 0.5 ==> r > 0.0
  {
    if r >= 0.0 then (r + 0.5).Floor else -((-r + 0.5).Floor)
  }

  /** A float cast `as i32` before saturation: rounds toward zero. */
  function TruncateTowardZero(r: real): (n: int)
    ensures r >= 0.0 ==> n == r.Floor
    ensures 0.0 <= n as real <= r || r <= n as real <= 0.0
    ensures -1.0 < r - n as real < 1.0
  {
    if r >= 0.0 then r.Floor else -((-r).Floor)
  }

  datatype Coordinate = Coordinate(x: I32, y: I32) {

    /** `to_vec2` and `From<Coordinate> for Vec2`. */
    function ToVec2(): Vec2 {
      Vec2(x as real, y as real)
    }

    /**
     * `from_vec2_floor`, also `From<Vec2> for Coordinate`: the cell whose unit
     * square holds `v`.
     */
    static function FromVec2Floor(v: Vec2): (c: Coordinate)
      ensures InI32Range(v.x) ==> c.x as real <= v.x < c.x as real + 1.0
      ensures InI32Range(v.y) ==> c.y as real <= v.y < c.y as real + 1.0
    {
      Coordinate(SaturateI32(v.x.Floor), SaturateI32(v.y.Floor))
    }

    /** `from_vec2_round`: the nearest cell, within half a tile on each axis. */
    static function FromVec2Round(v: Vec2): (c: Coordinate)
      ensures I32Min as real <= v.x <= I32Max as real && I32Min as real <= v.y <= I32Max as real ==>
                -0.5 <= v.x - c.x as real <= 0.5 && -0.5 <= v.y - c.y as real <= 0.5
    {
      Coordinate(SaturateI32(RoundHalfAwayFromZero(v.x)), SaturateI32(RoundHalfAwayFromZero(v.y)))
    }

    /** `from_vec2_trunc`: each component cast toward zero. */
    static function FromVec2Trunc(v: Vec2): (c: Coordinate)
      ensures InI32Range(v.x) && InI32Range(v.y) ==>
                -1.0 < v.x - c.x as real < 1.0 && -1.0 < v.y - c.y as real < 1.0
      ensures v.x >= 0.0 && v.y >= 0.0 ==> c == FromVec2Floor(v)
    {
      Coordinate(SaturateI32(TruncateTowardZero(v.x)), SaturateI32(TruncateTowardZero(v.y)))
    }
  }

  /** Flooring a cell's own corner gives the cell back. */
  lemma FloorOfCornerIsCell(c: Coordinate)
    ensures Coordinate.FromVec2Floor(c.ToVec2()) == c
  {
  }

  /** The floor conversion gives the one cell whose unit square (closed left and top) holds `v`. */
  lemma FloorIsUniqueCell(v: Vec2, c: Coordinate)
    requires c.x as real <= v.x < c.x as real + 1.0 && c.y as real <= v.y < c.y as real + 1.0
    ensures Coordinate.FromVec2Floor(v) == c
  {
    assert v.x.Floor == c.x && v.y.Floor == c.y;
  }

  /** Truncation and flooring part ways exactly on negative non-integers. */
  lemma TruncDiffersFromFloorBelowZero(v: Vec2)
    requires InI32Range(v.x) && v.x < 0.0 && v.x != v.x.Floor as real
    ensures Coordinate.FromVec2Trunc(v).x == Coordinate.FromVec2Floor(v).x + 1
  {
  }
}
