/**
 * The two coordinate spaces and the maps between them
 * (src/gameplay/utils/mod.rs and src/gameplay/utils.rs).
 *
 * Render space: origin at the centre of the screen, y pointing up.
 * World array space: origin at the top-left corner, y pointing down,
 * one unit per tile.
 */
module Spaces {
  import opened Vectors

  /** Tiles per screen side (`SCREEN_DIM`). */
  const ScreenDim: nat := 11

  /** `SCREEN_DIM as f32 / 2.0` */
  const Offset: real := ScreenDim as real / 2.0

  /** Documents a change of y direction: negation. */
  function FlippedYAxis(v: real): (r: real)
    ensures r + v == 0.0
  {
    -v
  }

  function WorldArrayPositionFromRenderPosition(x: real, y: real): (p: Vec2)
    ensures p.x == x + 5.5 && p.y == 5.5 - y
  {
    Vec2(x + Offset, FlippedYAxis(y) - FlippedYAxis(Offset))
  }

  function RenderXFromWorldArrayX(x: real): (r: real)
    ensures r == x - 5.5
  {
    x - Offset
  }

  function RenderYFromWorldArrayY(y: real): (r: real)
    ensures r == 5.5 - y
  {
    FlippedYAxis(y) - FlippedYAxis(Offset)
  }

  function RenderPositionFromWorldArrayPosition(x: real, y: real): (p: Vec2)
    ensures p.x == x - 5.5 && p.y == 5.5 - y
  {
    Vec2(RenderXFromWorldArrayX(x), RenderYFromWorldArrayY(y))
  }

  /**
   * `coordinate_translation`: the render position of the centre of tile
   * (x, y), the point half a tile right of and below its top-left corner.
   */
  function CoordinateTranslation(x: nat, y: nat): (p: Vec2)
    ensures p == RenderPositionFromWorldArrayPosition(x as real + 0.5, y as real + 0.5)
  {
    var offset := (ScreenDim - 1) as real / 2.0;
    Vec2(x as real - offset, -(y as real - offset))
  }

  /** Render to array to render is the identity, and so is array to render to array. */
  lemma RoundTrips(p: Vec2)
    ensures var a := WorldArrayPositionFromRenderPosition(p.x, p.y);
            RenderPositionFromWorldArrayPosition(a.x, a.y) == p
    ensures var r := RenderPositionFromWorldArrayPosition(p.x, p.y);
            WorldArrayPositionFromRenderPosition(r.x, r.y) == p
  {
  }

  /** Flipping the y axis twice changes nothing. */
  lemma FlipInvolution(v: real)
    ensures FlippedYAxis(FlippedYAxis(v)) == v
  {
  }

  /** The centre tile (5, 5) sits at the render origin. */
  lemma CentreTileAtOrigin()
    ensures CoordinateTranslation(5, 5) == Zero
  {
  }

  /** Moving right a column moves right in render space; moving down a row moves down (y decreases). */
  lemma CoordinateTranslationMonotone(x: nat, y: nat, x': nat, y': nat)
    ensures x < x' ==> CoordinateTranslation(x, y).x < CoordinateTranslation(x', y).x
    ensures y < y' ==> CoordinateTranslation(x, y).y > CoordinateTranslation(x, y').y
  {
  }
}
