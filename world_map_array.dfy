/**
 * The compiled-in map (src/environment/world_map_array.rs), the world map's
 * default value, and what the maze relies on about it.
 */
module WorldMapArray {
  import opened Environment

  /** `TILE_MAP`: row y, column x. */
  const TileMap: seq<seq<Tile>> :=
    [
      [Tile(Grass, Tower), Tile(Grass, WallH), Tile(Grass, WallH), Tile(Grass, WallH), Tile(Grass, WallH), Tile(Grass, WallH), Tile(Grass, WallH), Tile(Grass, WallH), Tile(Grass, WallH), Tile(Grass, WallH), Tile(Grass, WallH)],
      [Tile(Grass, WallV), Tile(Grass, ObstructionType.None), Tile(Grass, ObstructionType.None), Tile(Grass, ObstructionType.None), Tile(Grass, ObstructionType.None), Tile(Grass, ObstructionType.None), Tile(Grass, ObstructionType.None), Tile(Grass, ObstructionType.None), Tile(Grass, ObstructionType.None), Tile(Grass, ObstructionType.None), Tile(Grass, ObstructionType.None)],
      [Tile(Grass, WallV), Tile(Grass, ObstructionType.None), Tile(Grass, ObstructionType.None), Tile(DirtH, Rock2), Tile(Grass, ObstructionType.None), Tile(Grass, ObstructionType.None), Tile(Grass, ObstructionType.None), Tile(Grass, ObstructionType.None), Tile(Grass, ObstructionType.None), Tile(Grass, ObstructionType.None), Tile(Grass, ObstructionType.None)],
      [Tile(Grass, WallV), Tile(Grass, ObstructionType.None), Tile(Grass, Rock1), Tile(Grass, Rock2), Tile(Grass, ObstructionType.None), Tile(Grass, ObstructionType.None), Tile(Grass, ObstructionType.None), Tile(Grass, Rock1), Tile(Grass, Rock2), Tile(Grass, Rock3), Tile(Grass, Tower)],
      [Tile(Grass, WallV), Tile(Grass, ObstructionType.None), Tile(Grass, ObstructionType.None), Tile(Grass, ObstructionType.None), Tile(Grass, ObstructionType.None), Tile(Grass, ObstructionType.None), Tile(Grass, Rock1), Tile(DirtV, ObstructionType.None), Tile(Grass, ObstructionType.None), Tile(Grass, ObstructionType.None), Tile(Grass, WallV)],
      [Tile(Grass, WallV), Tile(Grass, ObstructionType.None), Tile(Grass, ObstructionType.None), Tile(Grass, ObstructionType.None), Tile(DirtH, ObstructionType.None), Tile(Grass, ObstructionType.None), Tile(Grass, ObstructionType.None), Tile(Grass, ObstructionType.None), Tile(Grass, ObstructionType.None), Tile(Grass, ObstructionType.None), Tile(Grass, WallV)],
      [Tile(Grass, WallV), Tile(Grass, ObstructionType.None), Tile(Grass, ObstructionType.None), Tile(Grass, ObstructionType.None), Tile(Grass, ObstructionType.None), Tile(Grass, ObstructionType.None), Tile(Grass, ObstructionType.None), Tile(Grass, ObstructionType.None), Tile(Grass, ObstructionType.None), Tile(Grass, ObstructionType.None), Tile(Grass, WallV)],
      [Tile(Grass, Tower), Tile(Grass, WallH), Tile(Grass, WallH), Tile(Grass, WallH), Tile(Grass, WallH), Tile(Grass, WallH), Tile(Grass, WallH), Tile(Grass, Tower), Tile(Grass, ObstructionType.None), Tile(Grass, ObstructionType.None), Tile(Grass, WallV)],
      [Tile(Grass, ObstructionType.None), Tile(Grass, ObstructionType.None), Tile(Grass, ObstructionType.None), Tile(Grass, ObstructionType.None), Tile(Grass, ObstructionType.None), Tile(Grass, ObstructionType.None), Tile(Grass, ObstructionType.None), Tile(Grass, ObstructionType.None), Tile(Grass, ObstructionType.None), Tile(Grass, ObstructionType.None), Tile(Grass, WallV)],
      [Tile(Grass, ObstructionType.None), Tile(Grass, ObstructionType.None), Tile(Grass, ObstructionType.None), Tile(Grass, ObstructionType.None), Tile(Grass, ObstructionType.None), Tile(Grass, ObstructionType.None), Tile(Grass, ObstructionType.None), Tile(Grass, ObstructionType.None), Tile(Grass, ObstructionType.None), Tile(DirtV, ObstructionType.None), Tile(Grass, WallV)],
      [Tile(Grass, WallH), Tile(Grass, WallH), Tile(Grass, WallH), Tile(Grass, WallH), Tile(Grass, WallH), Tile(Grass, WallH), Tile(Grass, WallH), Tile(Grass, WallH), Tile(Grass, WallH), Tile(Grass, WallH), Tile(Grass, Tower)]
    ]

  /** `WorldMap::default`: the map built from the table, MapDim rows of MapDim tiles. */
  function DefaultWorldMap(): (m: WorldMap)
    ensures m.Valid() && m.grid == TileMap
  {
    WorldMap(TileMap)
  }

  /** Rows 0 and 10, the north and south walls, obstruct along their whole length. */
  lemma NorthAndSouthWallsClosed()
    ensures forall x :: 0 <= x < MapDim ==> TileMap[0][x].IsObstruction() && TileMap[10][x].IsObstruction()
  {
  }

  /** The finish-line cells (10, 1) and (10, 2) are open. */
  lemma FinishCellsOpen()
    ensures !TileMap[1][10].IsObstruction() && !TileMap[2][10].IsObstruction()
  {
  }

  /** The player's spawn cell (5, 1) is open. */
  lemma SpawnCellOpen()
    ensures !TileMap[1][5].IsObstruction()
  {
  }

  /** The west column is open at rows 8 and 9: the west boundary has a gap. */
  lemma WestBoundaryGap()
    ensures !TileMap[8][0].IsObstruction() && !TileMap[9][0].IsObstruction()
  {
  }

  /** Row 7 is a wall from column 0 to 7 and at column 10, with a passage at columns 8 and 9. */
  lemma Row7Passage()
    ensures forall x :: 0 <= x < MapDim ==> (TileMap[7][x].IsObstruction() <==> x <= 7 || x == 10)
  {
  }

  /** Cells next to the walls in columns 0 and 10 and in row 7 that the movement examples touch. */
  lemma WallNeighbourhoods()
    ensures TileMap[2][0].IsObstruction() && !TileMap[3][1].IsObstruction()
    ensures !TileMap[6][4].IsObstruction() && TileMap[7][4].IsObstruction()
    ensures !TileMap[6][9].IsObstruction() && TileMap[5][10].IsObstruction() && TileMap[6][10].IsObstruction()
  {
  }

  lemma RowObstructions0()
    ensures RowObstructions(DefaultWorldMap(), 0, MapDim) == 11
  {
    var m := DefaultWorldMap();
    assert RowObstructions(m, 0, 1) == 1;
    assert RowObstructions(m, 0, 2) == 2;
    assert RowObstructions(m, 0, 3) == 3;
    assert RowObstructions(m, 0, 4) == 4;
    assert RowObstructions(m, 0, 5) == 5;
    assert RowObstructions(m, 0, 6) == 6;
    assert RowObstructions(m, 0, 7) == 7;
    assert RowObstructions(m, 0, 8) == 8;
    assert RowObstructions(m, 0, 9) == 9;
    assert RowObstructions(m, 0, 10) == 10;
    assert RowObstructions(m, 0, 11) == 11;
  }

  lemma RowObstructions1()
    ensures RowObstructions(DefaultWorldMap(), 1, MapDim) == 1
  {
    var m := DefaultWorldMap();
    assert RowObstructions(m, 1, 1) == 1;
    assert RowObstructions(m, 1, 2) == 1;
    assert RowObstructions(m, 1, 3) == 1;
    assert RowObstructions(m, 1, 4) == 1;
    assert RowObstructions(m, 1, 5) == 1;
    assert RowObstructions(m, 1, 6) == 1;
    assert RowObstructions(m, 1, 7) == 1;
    assert RowObstructions(m, 1, 8) == 1;
    assert RowObstructions(m, 1, 9) == 1;
    assert RowObstructions(m, 1, 10) == 1;
    assert RowObstructions(m, 1, 11) == 1;
  }

  lemma RowObstructions2()
    ensures RowObstructions(DefaultWorldMap(), 2, MapDim) == 2
  {
    var m := DefaultWorldMap();
    assert RowObstructions(m, 2, 1) == 1;
    assert RowObstructions(m, 2, 2) == 1;
    assert RowObstructions(m, 2, 3) == 1;
    assert RowObstructions(m, 2, 4) == 2;
    assert RowObstructions(m, 2, 5) == 2;
    assert RowObstructions(m, 2, 6) == 2;
    assert RowObstructions(m, 2, 7) == 2;
    assert RowObstructions(m, 2, 8) == 2;
    assert RowObstructions(m, 2, 9) == 2;
    assert RowObstructions(m, 2, 10) == 2;
    assert RowObstructions(m, 2, 11) == 2;
  }

  lemma RowObstructions3()
    ensures RowObstructions(DefaultWorldMap(), 3, MapDim) == 7
  {
    var m := DefaultWorldMap();
    assert RowObstructions(m, 3, 1) == 1;
    assert RowObstructions(m, 3, 2) == 1;
    assert RowObstructions(m, 3, 3) == 2;
    assert RowObstructions(m, 3, 4) == 3;
    assert RowObstructions(m, 3, 5) == 3;
    assert RowObstructions(m, 3, 6) == 3;
    assert RowObstructions(m, 3, 7) == 3;
    assert RowObstructions(m, 3, 8) == 4;
    assert RowObstructions(m, 3, 9) == 5;
    assert RowObstructions(m, 3, 10) == 6;
    assert RowObstructions(m, 3, 11) == 7;
  }

  lemma RowObstructions4()
    ensures RowObstructions(DefaultWorldMap(), 4, MapDim) == 3
  {
    var m := DefaultWorldMap();
    assert RowObstructions(m, 4, 1) == 1;
    assert RowObstructions(m, 4, 2) == 1;
    assert RowObstructions(m, 4, 3) == 1;
    assert RowObstructions(m, 4, 4) == 1;
    assert RowObstructions(m, 4, 5) == 1;
    assert RowObstructions(m, 4, 6) == 1;
    assert RowObstructions(m, 4, 7) == 2;
    assert RowObstructions(m, 4, 8) == 2;
    assert RowObstructions(m, 4, 9) == 2;
    assert RowObstructions(m, 4, 10) == 2;
    assert RowObstructions(m, 4, 11) == 3;
  }

  lemma RowObstructions5()
    ensures RowObstructions(DefaultWorldMap(), 5, MapDim) == 2
  {
    var m := DefaultWorldMap();
    assert RowObstructions(m, 5, 1) == 1;
    assert RowObstructions(m, 5, 2) == 1;
    assert RowObstructions(m, 5, 3) == 1;
    assert RowObstructions(m, 5, 4) == 1;
    assert RowObstructions(m, 5, 5) == 1;
    assert RowObstructions(m, 5, 6) == 1;
    assert RowObstructions(m, 5, 7) == 1;
    assert RowObstructions(m, 5, 8) == 1;
    assert RowObstructions(m, 5, 9) == 1;
    assert RowObstructions(m, 5, 10) == 1;
    assert RowObstructions(m, 5, 11) == 2;
  }

  lemma RowObstructions6()
    ensures RowObstructions(DefaultWorldMap(), 6, MapDim) == 2
  {
    var m := DefaultWorldMap();
    assert RowObstructions(m, 6, 1) == 1;
    assert RowObstructions(m, 6, 2) == 1;
    assert RowObstructions(m, 6, 3) == 1;
    assert RowObstructions(m, 6, 4) == 1;
    assert RowObstructions(m, 6, 5) == 1;
    assert RowObstructions(m, 6, 6) == 1;
    assert RowObstructions(m, 6, 7) == 1;
    assert RowObstructions(m, 6, 8) == 1;
    assert RowObstructions(m, 6, 9) == 1;
    assert RowObstructions(m, 6, 10) == 1;
    assert RowObstructions(m, 6, 11) == 2;
  }

  lemma RowObstructions7()
    ensures RowObstructions(DefaultWorldMap(), 7, MapDim) == 9
  {
    var m := DefaultWorldMap();
    assert RowObstructions(m, 7, 1) == 1;
    assert RowObstructions(m, 7, 2) == 2;
    assert RowObstructions(m, 7, 3) == 3;
    assert RowObstructions(m, 7, 4) == 4;
    assert RowObstructions(m, 7, 5) == 5;
    assert RowObstructions(m, 7, 6) == 6;
    assert RowObstructions(m, 7, 7) == 7;
    assert RowObstructions(m, 7, 8) == 8;
    assert RowObstructions(m, 7, 9) == 8;
    assert RowObstructions(m, 7, 10) == 8;
    assert RowObstructions(m, 7, 11) == 9;
  }

  lemma RowObstructions8()
    ensures RowObstructions(DefaultWorldMap(), 8, MapDim) == 1
  {
    var m := DefaultWorldMap();
    assert RowObstructions(m, 8, 1) == 0;
    assert RowObstructions(m, 8, 2) == 0;
    assert RowObstructions(m, 8, 3) == 0;
    assert RowObstructions(m, 8, 4) == 0;
    assert RowObstructions(m, 8, 5) == 0;
    assert RowObstructions(m, 8, 6) == 0;
    assert RowObstructions(m, 8, 7) == 0;
    assert RowObstructions(m, 8, 8) == 0;
    assert RowObstructions(m, 8, 9) == 0;
    assert RowObstructions(m, 8, 10) == 0;
    assert RowObstructions(m, 8, 11) == 1;
  }

  lemma RowObstructions9()
    ensures RowObstructions(DefaultWorldMap(), 9, MapDim) == 1
  {
    var m := DefaultWorldMap();
    assert RowObstructions(m, 9, 1) == 0;
    assert RowObstructions(m, 9, 2) == 0;
    assert RowObstructions(m, 9, 3) == 0;
    assert RowObstructions(m, 9, 4) == 0;
    assert RowObstructions(m, 9, 5) == 0;
    assert RowObstructions(m, 9, 6) == 0;
    assert RowObstructions(m, 9, 7) == 0;
    assert RowObstructions(m, 9, 8) == 0;
    assert RowObstructions(m, 9, 9) == 0;
    assert RowObstructions(m, 9, 10) == 0;
    assert RowObstructions(m, 9, 11) == 1;
  }

  lemma RowObstructions10()
    ensures RowObstructions(DefaultWorldMap(), 10, MapDim) == 11
  {
    var m := DefaultWorldMap();
    assert RowObstructions(m, 10, 1) == 1;
    assert RowObstructions(m, 10, 2) == 2;
    assert RowObstructions(m, 10, 3) == 3;
    assert RowObstructions(m, 10, 4) == 4;
    assert RowObstructions(m, 10, 5) == 5;
    assert RowObstructions(m, 10, 6) == 6;
    assert RowObstructions(m, 10, 7) == 7;
    assert RowObstructions(m, 10, 8) == 8;
    assert RowObstructions(m, 10, 9) == 9;
    assert RowObstructions(m, 10, 10) == 10;
    assert RowObstructions(m, 10, 11) == 11;
  }

  /** The default map has 50 obstructing tiles, so it is drawn with 121 + 50 sprites. */
  lemma DefaultSpriteCount()
    ensures GridObstructions(DefaultWorldMap(), MapDim) == 50
    ensures |GridEntries(DefaultWorldMap(), MapDim)| == 171
  {
    var m := DefaultWorldMap();
    RowObstructions0();
    assert GridObstructions(m, 1) == 11;
    RowObstructions1();
    assert GridObstructions(m, 2) == 12;
    RowObstructions2();
    assert GridObstructions(m, 3) == 14;
    RowObstructions3();
    assert GridObstructions(m, 4) == 21;
    RowObstructions4();
    assert GridObstructions(m, 5) == 24;
    RowObstructions5();
    assert GridObstructions(m, 6) == 26;
    RowObstructions6();
    assert GridObstructions(m, 7) == 28;
    RowObstructions7();
    assert GridObstructions(m, 8) == 37;
    RowObstructions8();
    assert GridObstructions(m, 9) == 38;
    RowObstructions9();
    assert GridObstructions(m, 10) == 39;
    RowObstructions10();
    assert GridObstructions(m, 11) == 50;
    GridEntriesCount(m, MapDim);
  }
}
