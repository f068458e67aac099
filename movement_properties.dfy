/**
 * What the per-axis resolver of src/gameplay/movement.rs guarantees, and
 * where it parts from the intuitive "stop at the first wall" reading.
 */
module MovementProperties {
  import opened Wrappers
  import opened Vectors
  import opened Coordinates
  import opened Hitboxes
  import opened Environment
  import opened WorldMapArray
  import opened Movement

  /** The unit square of a probed cell. */
  function CellBox(m: WorldMap, c: Coordinate): Hitbox
    requires m.Valid() && m.At(c).Some?
  {
    m.At(c).value.Hitbox(c)
  }

  /**
   * Moving east never ends with the footprint overlapping (with positive
   * area) an obstructing probed cell it did not already overlap: either the
   * move is taken because it does not touch that cell, or the entity ends
   * flush against the cell's west face.
   */
  lemma NoPenetrationEast(m: WorldMap, p: Vec2, h: Vec2, tx: real, c: Coordinate)
    requires m.Valid() && h.x >= 0.0 && tx > 0.0
    requires c == EastProbes(p, h).0 || c == EastProbes(p, h).1
    requires Obstructs(m, c) && !Footprint(p, h).OverlapsInterior(CellBox(m, c))
    ensures !Footprint(Vec2(ResolveX(m, p, h, tx), p.y), h).OverlapsInterior(CellBox(m, c))
  {
  }

  /** Moving west: as for east, against the cell's east face. */
  lemma NoPenetrationWest(m: WorldMap, p: Vec2, h: Vec2, tx: real, c: Coordinate)
    requires m.Valid() && h.x >= 0.0 && tx < 0.0
    requires c == WestProbes(p, h).0 || c == WestProbes(p, h).1
    requires Obstructs(m, c) && !Footprint(p, h).OverlapsInterior(CellBox(m, c))
    ensures !Footprint(Vec2(ResolveX(m, p, h, tx), p.y), h).OverlapsInterior(CellBox(m, c))
  {
  }

  /** Moving down the array (south on screen): as for east, against the cell's top face. */
  lemma NoPenetrationSouth(m: WorldMap, p: Vec2, h: Vec2, ty: real, c: Coordinate)
    requires m.Valid() && h.y >= 0.0 && ty > 0.0
    requires c == SouthProbes(p, h).0 || c == SouthProbes(p, h).1
    requires Obstructs(m, c) && !Footprint(p, h).OverlapsInterior(CellBox(m, c))
    ensures !Footprint(Vec2(p.x, ResolveY(m, p, h, ty)), h).OverlapsInterior(CellBox(m, c))
  {
  }

  /** Moving up the array (north on screen): as for east, against the cell's bottom face. */
  lemma NoPenetrationNorth(m: WorldMap, p: Vec2, h: Vec2, ty: real, c: Coordinate)
    requires m.Valid() && h.y >= 0.0 && ty < 0.0
    requires c == NorthProbes(p, h).0 || c == NorthProbes(p, h).1
    requires Obstructs(m, c) && !Footprint(p, h).OverlapsInterior(CellBox(m, c))
    ensures !Footprint(Vec2(p.x, ResolveY(m, p, h, ty)), h).OverlapsInterior(CellBox(m, c))
  {
  }

  /** The x phase never carries the entity past the step it asked for. */
  lemma NoOvershootX(m: WorldMap, p: Vec2, h: Vec2, tx: real)
    requires m.Valid() && h.x >= 0.0
    ensures tx > 0.0 ==> ResolveX(m, p, h, tx) <= p.x + tx
    ensures tx < 0.0 ==> ResolveX(m, p, h, tx) >= p.x + tx
    ensures tx == 0.0 ==> ResolveX(m, p, h, tx) == p.x
  {
  }

  /** The y phase never carries the entity past the step it asked for. */
  lemma NoOvershootY(m: WorldMap, p: Vec2, h: Vec2, ty: real)
    requires m.Valid() && h.y >= 0.0
    ensures ty > 0.0 ==> ResolveY(m, p, h, ty) <= p.y + ty
    ensures ty < 0.0 ==> ResolveY(m, p, h, ty) >= p.y + ty
    ensures ty == 0.0 ==> ResolveY(m, p, h, ty) == p.y
  {
  }

  /** A map whose only obstruction is a tower on the centre cell (5, 5). */
  function CentreTowerMap(): (m: WorldMap)
    ensures m.Valid()
    ensures forall x, y :: 0 <= x < MapDim && 0 <= y < MapDim ==>
              (m.grid[y][x].IsObstruction() <==> x == 5 && y == 5)
  {
    WorldMap(seq(MapDim, y =>
      seq(MapDim, x => Tile(GroundType.Grass, if x == 5 && y == 5 then ObstructionType.Tower else ObstructionType.None))))
  }

  /**
   * Entity of girth 0.8 centred on (4.5, 5.5), left of the tower: a small
   * step east ends flush against the tower at x = 4.6, but a step of two
   * tiles lands on the far side at x = 6.5. The probes look only half a
   * tile past the footprint's leading edge, and the moved footprint no
   * longer meets the probed cell, so the step is taken whole.
   */
  lemma TunnelsThroughThinObstruction()
    ensures ResolveX(CentreTowerMap(), Vec2(4.5, 5.5), Vec2(0.4, 0.4), 0.2) == 4.6
    ensures ResolveX(CentreTowerMap(), Vec2(4.5, 5.5), Vec2(0.4, 0.4), 2.0) == 6.5
  {
    var m := CentreTowerMap();
    var p, h := Vec2(4.5, 5.5), Vec2(0.4, 0.4);
    var probes := EastProbes(p, h);
    assert probes.0 == Coordinate(5, 5) && probes.1 == Coordinate(5, 5);
    assert m.grid[5][5].IsObstruction();
  }

  /**
   * An entity of girth 0.8 resting on the top face of an obstructing cell
   * (4, 7) (its centre at y = 6.6, where a southward move into that cell
   * leaves it), with the cell above, (4, 6), open, and reaching into column
   * 4, is pushed back west by any eastward step of up to 1.6 tiles: the
   * lower probe lands on the cell it merely touches, which counts as a hit.
   */
  lemma PushedBackAlongWallTop(m: WorldMap, tx: real)
    requires m.Valid() && !m.grid[6][4].IsObstruction() && m.grid[7][4].IsObstruction()
    requires 0.0 < tx <= 1.6
    ensures ResolveX(m, Vec2(3.8, 6.6), Vec2(0.4, 0.4), tx) == 3.6
    ensures ResolveX(m, Vec2(3.6, 6.6), Vec2(0.4, 0.4), tx) == 3.6
  {
    var h := Vec2(0.4, 0.4);
    assert EastProbes(Vec2(3.8, 6.6), h) == (Coordinate(4, 6), Coordinate(4, 7));
    assert EastProbes(Vec2(3.6, 6.6), h) == (Coordinate(4, 6), Coordinate(4, 7));
  }

  /** The built-in map has that wall: the top of row 7 at column 4. */
  lemma PushedBackOnDefaultMap(tx: real)
    requires 0.0 < tx <= 1.6
    ensures ResolveX(DefaultWorldMap(), Vec2(3.6, 6.6), Vec2(0.4, 0.4), tx) == 3.6
  {
    WallNeighbourhoods();
    PushedBackAlongWallTop(DefaultWorldMap(), tx);
  }

  /**
   * The same on the other axis: an entity of girth 0.8 pressed against an
   * obstructing column on its east (right edge at x = 10, where an eastward
   * move into that column leaves it), with the cell below-left, (9, 6),
   * open, cannot move down the array along the column. The second probe
   * lands on the column cell (10, 6) the footprint only touches, and any
   * step of up to 1.8 tiles snaps it back to y = 5.6.
   */
  lemma StuckAgainstEastWall(m: WorldMap, ty: real)
    requires m.Valid() && !m.grid[6][9].IsObstruction() && m.grid[6][10].IsObstruction()
    requires 0.0 < ty <= 1.8
    ensures ResolveY(m, Vec2(9.6, 5.6), Vec2(0.4, 0.4), ty) == 5.6
  {
    assert SouthProbes(Vec2(9.6, 5.6), Vec2(0.4, 0.4)) == (Coordinate(9, 6), Coordinate(10, 6));
  }

  /** The built-in map's east wall, column 10, is such a column at rows 5 and 6. */
  lemma StuckOnDefaultMap(ty: real)
    requires 0.0 < ty <= 1.8
    ensures ResolveY(DefaultWorldMap(), Vec2(9.6, 5.6), Vec2(0.4, 0.4), ty) == 5.6
  {
    WallNeighbourhoods();
    StuckAgainstEastWall(DefaultWorldMap(), ty);
  }

  /**
   * Sliding: an entity of girth 0.8 at (1.6, 2.5), next to an obstructing
   * cell (0, 2) on its west and with the cell (1, 3) below it open, moving
   * west and south at once, stops flush against the cell on x and still
   * takes its whole step on y.
   */
  lemma SlidesAlongWall(m: WorldMap)
    requires m.Valid() && m.grid[2][0].IsObstruction() && !m.grid[3][1].IsObstruction()
    ensures Step(m, Vec2(1.6, 2.5), Vec2(0.4, 0.4), Vec2(-0.3, 0.3)) == Vec2(1.4, 2.8)
  {
    StopsAtWestWall(m);
    SouthStepIsFree(m);
  }

  lemma StopsAtWestWall(m: WorldMap)
    requires m.Valid() && m.grid[2][0].IsObstruction()
    ensures ResolveX(m, Vec2(1.6, 2.5), Vec2(0.4, 0.4), -0.3) == 1.4
  {
    var p, h := Vec2(1.6, 2.5), Vec2(0.4, 0.4);
    var probes := WestProbes(p, h);
    assert probes == (Coordinate(0, 2), Coordinate(0, 2));
    assert OnMap(m, probes);
    assert Obstructs(m, probes.0);
    var moved := Footprint(p, h).Translate(Vec2(-0.3, 0.0));
    assert moved.X1() == 0.9 && moved.X2() == 1.7;
    var box := m.At(probes.0).value.Hitbox(probes.0);
    assert box.X1() == 0.0 && box.X2() == 1.0 && box.Y1() == 2.0 && box.Y2() == 3.0;
    assert moved.Intersects(box);
    assert BlocksMove(m, probes.0, moved);
    assert AxisOutcome(m, probes, moved, p.x, -0.3, (probes.0.x as real + 1.0) + h.x) == 1.4;
  }

  lemma SouthStepIsFree(m: WorldMap)
    requires m.Valid() && !m.grid[3][1].IsObstruction()
    ensures ResolveY(m, Vec2(1.4, 2.5), Vec2(0.4, 0.4), 0.3) == 2.8
  {
    assert SouthProbes(Vec2(1.4, 2.5), Vec2(0.4, 0.4)) == (Coordinate(1, 3), Coordinate(1, 3));
  }

  /** The west wall of the built-in map is such a cell. */
  lemma SlidesOnDefaultMap()
    ensures Step(DefaultWorldMap(), Vec2(1.6, 2.5), Vec2(0.4, 0.4), Vec2(-0.3, 0.3)) == Vec2(1.4, 2.8)
  {
    WallNeighbourhoods();
    SlidesAlongWall(DefaultWorldMap());
  }
}
