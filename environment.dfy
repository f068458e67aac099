/**
 * Tiles, the world map and the list of sprites that draws it
 * (src/gameplay/environment.rs).
 */
module Environment {
  import opened Wrappers
  import opened Vectors
  import opened Coordinates
  import opened Hitboxes
  import opened Spaces

  /** Tiles per map side: the map is one screen (`SCREEN_DIM as MAP_DIM`). */
  const MapDim: nat := ScreenDim

  datatype GroundType = Grass | DirtV | DirtH {

    /** Sprite of the ground decoration: every ground has one. */
    function AtlasIndex(): (r: Option<nat>)
      ensures r.Some? && r.value in {2, 3, 4}
    {
      match this
      case Grass => Some(2)
      case DirtH => Some(3)
      case DirtV => Some(4)
    }
  }

  datatype ObstructionType = None | WallV | WallH | Tower | Rock1 | Rock2 | Rock3 {

    /** Sprite of the obstruction: absent exactly for `None`. */
    function AtlasIndex(): (r: Option<nat>)
      ensures r.None? <==> this == ObstructionType.None
      ensures r.Some? ==> r.value in {15, 16, 17, 30, 31, 32}
    {
      match this
      case None => Option.None
      case WallV => Some(31)
      case WallH => Some(30)
      case Tower => Some(32)
      case Rock1 => Some(15)
      case Rock2 => Some(16)
      case Rock3 => Some(17)
    }
  }

  datatype Tile = Tile(ground: GroundType, obstruction: ObstructionType) {

    predicate IsObstruction() {
      obstruction != ObstructionType.None
    }

    /**
     * `Tile::hitbox` (its body is not part of this model): the unit square
     * whose top-left corner is the cell.
     */
    function Hitbox(c: Coordinate): (h: Hitboxes.Hitbox)
      ensures h.Valid()
      ensures h.X1() == c.x as real && h.X2() == c.x as real + 1.0
      ensures h.Y1() == c.y as real && h.Y2() == c.y as real + 1.0
    {
      Hitboxes.Hitbox.FromCorners(c.ToVec2(), c.ToVec2().Add(Vec2(1.0, 1.0)))
    }
  }

  /** A tile blocks movement exactly when it draws an obstruction sprite. */
  lemma ObstructionIffObstructionSprite(t: Tile)
    ensures t.IsObstruction() <==> t.obstruction.AtlasIndex().Some?
  {
  }

  /** The map: `grid[row][column]`, MapDim rows of MapDim tiles. */
  datatype WorldMap = WorldMap(grid: seq<seq<Tile>>) {

    predicate Valid() {
      |grid| == MapDim && forall row :: 0 <= row < |grid| ==> |grid[row]| == MapDim
    }

    /**
     * The tile at a cell, or `None` when either index is outside
     * [0, MapDim); row is y and column is x.
     */
    function At(c: Coordinate): (t: Option<Tile>)
      requires Valid()
      ensures t.Some? <==> 0 <= c.x < MapDim && 0 <= c.y < MapDim
      ensures t.Some? ==> t.value == grid[c.y][c.x]
    {
      AtCell(c.x, c.y)
    }

    /** `WorldMap::at` as declared: floors an array-space position first. */
    function AtPosition(p: Vec2): (t: Option<Tile>)
      requires Valid()
      ensures t.Some? <==> 0.0 <= p.x < MapDim as real && 0.0 <= p.y < MapDim as real
    {
      AtCell(p.x.Floor, p.y.Floor)
    }

    function AtCell(x: int, y: int): Option<Tile>
      requires Valid()
    {
      if x >= 0 && y >= 0 && x < MapDim && y < MapDim then Some(grid[y][x]) else Option.None
    }
  }

  /** Looking up a position is looking up the cell its floor conversion gives. */
  lemma AtPositionIsAtFloorCell(m: WorldMap, p: Vec2)
    requires m.Valid()
    ensures m.AtPosition(p) == m.At(Coordinate.FromVec2Floor(p))
  {
    var c := Coordinate.FromVec2Floor(p);
    if 0 <= p.x.Floor < MapDim && 0 <= p.y.Floor < MapDim {
      assert c.x == p.x.Floor && c.y == p.y.Floor;
    } else if p.x.Floor < 0 || p.x.Floor >= MapDim {
      assert c.x < 0 || c.x >= MapDim;
    } else {
      assert c.y < 0 || c.y >= MapDim;
    }
  }

  /** One sprite to draw: its render-space translation and atlas index. */
  datatype Entry = Entry(translation: Vec2, index: nat)

  /** The sprites of one tile: its ground, then its obstruction if it has one. */
  function CellEntries(t: Tile, row: nat, column: nat): seq<Entry> {
    var base := RenderPositionFromWorldArrayPosition(column as real, row as real);
    var ground := if t.ground.AtlasIndex().Some? then [Entry(base, t.ground.AtlasIndex().value)] else [];
    var obstruction := if t.obstruction.AtlasIndex().Some? then [Entry(base, t.obstruction.AtlasIndex().value)] else [];
    ground + obstruction
  }

  /** Sprites of the first n tiles of one row, left to right. */
  function RowEntries(m: WorldMap, row: nat, n: nat): seq<Entry>
    requires m.Valid() && row < MapDim && n <= MapDim
  {
    if n == 0 then [] else RowEntries(m, row, n - 1) + CellEntries(m.grid[row][n - 1], row, n - 1)
  }

  /** Sprites of the first n rows, top to bottom. */
  function GridEntries(m: WorldMap, n: nat): seq<Entry>
    requires m.Valid() && n <= MapDim
  {
    if n == 0 then [] else GridEntries(m, n - 1) + RowEntries(m, n - 1, MapDim)
  }

  function RowObstructions(m: WorldMap, row: nat, n: nat): nat
    requires m.Valid() && row < MapDim && n <= MapDim
  {
    if n == 0 then 0
    else RowObstructions(m, row, n - 1) + (if m.grid[row][n - 1].IsObstruction() then 1 else 0)
  }

  /** The number of obstructing tiles in the first n rows. */
  function GridObstructions(m: WorldMap, n: nat): nat
    requires m.Valid() && n <= MapDim
  {
    if n == 0 then 0 else GridObstructions(m, n - 1) + RowObstructions(m, n - 1, MapDim)
  }

  /**
   * `local_environment_objects`: walks the grid row by row and, in each row,
   * column by column, collecting each tile's sprites.
   */
  method LocalEnvironmentObjects(m: WorldMap) returns (entries: seq<Entry>)
    requires m.Valid()
    ensures entries == GridEntries(m, MapDim)
  {
    entries := [];
    var row := 0;
    while row < MapDim
      invariant 0 <= row <= MapDim
      invariant entries == GridEntries(m, row)
    {
      var column := 0;
      while column < MapDim
        invariant 0 <= column <= MapDim
        invariant entries == GridEntries(m, row) + RowEntries(m, row, column)
      {
        var tile := m.grid[row][column];
        var baseTranslation := RenderPositionFromWorldArrayPosition(column as real, row as real);
        var cell: seq<Entry> := [];
        match tile.ground.AtlasIndex() {
          case Some(index) => cell := cell + [Entry(baseTranslation, index)];
          case None =>
        }
        match tile.obstruction.AtlasIndex() {
          case Some(index) => cell := cell + [Entry(baseTranslation, index)];
          case None =>
        }
        entries := entries + cell;
        column := column + 1;
      }
      row := row + 1;
    }
  }

  /** A row prefix of n tiles yields n ground sprites plus one per obstruction. */
  lemma {:induction false} RowEntriesCount(m: WorldMap, row: nat, n: nat)
    requires m.Valid() && row < MapDim && n <= MapDim
    ensures |RowEntries(m, row, n)| == n + RowObstructions(m, row, n)
  {
    if n > 0 {
      RowEntriesCount(m, row, n - 1);
      var t := m.grid[row][n - 1];
      ObstructionIffObstructionSprite(t);
    }
  }

  /**
   * The sprite list has one ground sprite per tile plus one per obstructing
   * tile: MapDim * MapDim + the number of obstructions.
   */
  lemma {:induction false} GridEntriesCount(m: WorldMap, n: nat)
    requires m.Valid() && n <= MapDim
    ensures |GridEntries(m, n)| == n * MapDim + GridObstructions(m, n)
  {
    if n > 0 {
      GridEntriesCount(m, n - 1);
      RowEntriesCount(m, n - 1, MapDim);
    }
  }

  /** The entry draws a sprite of the tile at (row, column), at that cell's top-left corner. */
  predicate EntryOfCell(m: WorldMap, e: Entry, row: int, column: int)
    requires m.Valid()
  {
    && 0 <= row < MapDim && 0 <= column < MapDim
    && e.translation == RenderPositionFromWorldArrayPosition(column as real, row as real)
    && (Some(e.index) == m.grid[row][column].ground.AtlasIndex()
        || Some(e.index) == m.grid[row][column].obstruction.AtlasIndex())
  }

  lemma {:induction false} RowEntriesBelongToCells(m: WorldMap, row: nat, n: nat)
    requires m.Valid() && row < MapDim && n <= MapDim
    ensures forall e | e in RowEntries(m, row, n) :: exists c :: EntryOfCell(m, e, row, c)
  {
    if n > 0 {
      RowEntriesBelongToCells(m, row, n - 1);
      forall e | e in RowEntries(m, row, n)
        ensures exists c :: EntryOfCell(m, e, row, c)
      {
        if e in RowEntries(m, row, n - 1) {
        } else {
          assert e in CellEntries(m.grid[row][n - 1], row, n - 1);
          assert EntryOfCell(m, e, row, n - 1);
        }
      }
    }
  }

  /**
   * Every sprite in the list is a ground or obstruction sprite of some tile,
   * placed at that tile's render-space corner
   * `render_position_from_world_array_position(column, row)`.
   */
  lemma {:induction false} GridEntriesBelongToCells(m: WorldMap, n: nat)
    requires m.Valid() && n <= MapDim
    ensures forall e | e in GridEntries(m, n) :: exists row, column :: EntryOfCell(m, e, row, column)
  {
    if n > 0 {
      GridEntriesBelongToCells(m, n - 1);
      RowEntriesBelongToCells(m, n - 1, MapDim);
      forall e | e in GridEntries(m, n)
        ensures exists row, column :: EntryOfCell(m, e, row, column)
      {
        if e in GridEntries(m, n - 1) {
        } else {
          assert e in RowEntries(m, n - 1, MapDim);
          var c :| EntryOfCell(m, e, n - 1, c);
        }
      }
    }
  }
}
