/**
 * The tile-mesh buffer builder (src/utils/tile_mesh.rs): one textured quad
 * per tile, as a triangle list with `u16` indices.
 *
 * The mesh and asset handles are left out; the three buffers are returned.
 * Integer overflow follows Rust's debug builds, where `u16` arithmetic that
 * leaves the range panics; a panic is an `Err`.
 */
module TileMesh {
  import opened Wrappers
  import opened Vectors

  const U16Max: nat := 0xffff

  type U16 = n: nat | n <= U16Max

  /** Columns and rows of sprites in the texture atlas. */
  datatype AtlasConfig = AtlasConfig(cols: U16, rows: U16)

  /** A tile to draw: the bottom-left corner of its quad and its sprite index. */
  datatype TileSpec = TileSpec(translation: Vec2, spriteIndex: U16)

  datatype Mesh = Mesh(positions: seq<Vec3>, uvs: seq<Vec2>, indices: seq<nat>)

  datatype MeshError =
    | RemainderByZero   // `sprite_index % atlas.cols` with no columns
    | CounterOverflow   // `i += 4` past `u16::MAX`

  /** The four corners of a tile's quad, counter-clockwise from its bottom-left corner. */
  function QuadPositions(offset: Vec2, tileSize: real): (q: seq<Vec3>)
    ensures |q| == 4
  {
    [Vec3(offset.x, offset.y, 0.0),
     Vec3(offset.x + tileSize, offset.y, 0.0),
     Vec3(offset.x + tileSize, offset.y + tileSize, 0.0),
     Vec3(offset.x, offset.y + tileSize, 0.0)]
  }

  /** Top-left corner of a sprite's cell in the atlas, in texture coordinates (v grows downwards). */
  function SpriteOrigin(spriteIndex: nat, atlas: AtlasConfig): Vec2
    requires 0 < atlas.cols && 0 < atlas.rows
  {
    Vec2((spriteIndex % atlas.cols) as real / atlas.cols as real,
         (spriteIndex / atlas.cols) as real / atlas.rows as real)
  }

  /** Size of one sprite cell in texture coordinates. */
  function CellSize(atlas: AtlasConfig): Vec2
    requires 0 < atlas.cols && 0 < atlas.rows
  {
    Vec2(1.0 / atlas.cols as real, 1.0 / atlas.rows as real)
  }

  /** The texture coordinates given to the four corners, in the order of QuadPositions. */
  function QuadUvs(spriteIndex: nat, atlas: AtlasConfig): (q: seq<Vec2>)
    requires 0 < atlas.cols && 0 < atlas.rows
    ensures |q| == 4
  {
    var o, d := SpriteOrigin(spriteIndex, atlas), CellSize(atlas);
    [Vec2(o.x, o.y + d.y), Vec2(o.x + d.x, o.y + d.y), Vec2(o.x + d.x, o.y), Vec2(o.x, o.y)]
  }

  /** The two triangles of the `k`-th quad, whose corners start at vertex `4k`. */
  function QuadIndices(k: nat): (q: seq<nat>)
    ensures |q| == 6
  {
    var i := 4 * k;
    [i, i + 1, i + 2, i, i + 2, i + 3]
  }

  /** The position buffer for a list of tiles: their quads in order. */
  function MeshPositions(tiles: seq<TileSpec>, tileSize: real): (r: seq<Vec3>)
    ensures |r| == 4 * |tiles|
  {
    if |tiles| == 0 then []
    else MeshPositions(tiles[..|tiles| - 1], tileSize) + QuadPositions(tiles[|tiles| - 1].translation, tileSize)
  }

  /** The texture-coordinate buffer for a list of tiles. */
  function MeshUvs(tiles: seq<TileSpec>, atlas: AtlasConfig): (r: seq<Vec2>)
    requires 0 < atlas.cols && 0 < atlas.rows
    ensures |r| == 4 * |tiles|
  {
    if |tiles| == 0 then []
    else MeshUvs(tiles[..|tiles| - 1], atlas) + QuadUvs(tiles[|tiles| - 1].spriteIndex, atlas)
  }

  /** The index buffer for `n` quads: every index names one of the `4n` vertices. */
  function MeshIndices(n: nat): (r: seq<nat>)
    ensures |r| == 6 * n
    ensures forall j :: 0 <= j < |r| ==> r[j] < 4 * n
  {
    if n == 0 then [] else MeshIndices(n - 1) + QuadIndices(n - 1)
  }

  /** The largest number of tiles whose counter stays inside `u16`. */
  const MaxTiles: nat := 16383

  /**
   * `build_tile_mesh`. Each tile appends four positions, four texture
   * coordinates and six indices, and advances the vertex counter by four.
   */
  method BuildTileMesh(tiles: seq<TileSpec>, atlas: AtlasConfig, tileSize: real) returns (r: Result<Mesh, MeshError>)
    requires 0 < atlas.rows
    ensures r == Err(RemainderByZero) <==> 0 < |tiles| && atlas.cols == 0
    ensures r == Err(CounterOverflow) <==> MaxTiles < |tiles| && 0 < atlas.cols
    ensures r.Ok? ==> |tiles| <= MaxTiles && (atlas.cols == 0 ==> |tiles| == 0)
    ensures r.Ok? ==> r.value.positions == MeshPositions(tiles, tileSize) && r.value.indices == MeshIndices(|tiles|)
    ensures r.Ok? ==> r.value.uvs == if atlas.cols == 0 then [] else MeshUvs(tiles, atlas)
  {
    var positions: seq<Vec3> := [];
    var uvs: seq<Vec2> := [];
    var indices: seq<nat> := [];
    var i: U16 := 0;
    var k := 0;
    while k < |tiles|
      invariant 0 <= k <= |tiles| && k <= MaxTiles
      invariant i == 4 * k
      invariant 0 < k ==> 0 < atlas.cols
      invariant positions == MeshPositions(tiles[..k], tileSize)
      invariant uvs == if atlas.cols == 0 then [] else MeshUvs(tiles[..k], atlas)
      invariant indices == MeshIndices(k)
    {
      var tile := tiles[k];
      if atlas.cols == 0 {
        return Err(RemainderByZero);
      }
      var u := (tile.spriteIndex % atlas.cols) as real / atlas.cols as real;
      var v := (tile.spriteIndex / atlas.cols) as real / atlas.rows as real;
      var du := 1.0 / atlas.cols as real;
      var dv := 1.0 / atlas.rows as real;
      var offset := tile.translation;
      var quad := [
        Vec3(offset.x, offset.y, 0.0),
        Vec3(offset.x + tileSize, offset.y, 0.0),
        Vec3(offset.x + tileSize, offset.y + tileSize, 0.0),
        Vec3(offset.x, offset.y + tileSize, 0.0)];
      var quadUvs := [Vec2(u, v + dv), Vec2(u + du, v + dv), Vec2(u + du, v), Vec2(u, v)];
      // `i` is a multiple of four below 65533 here, so `i + 3` stays inside `u16`.
      var quadIndices := [i, i + 1, i + 2, i, i + 2, i + 3];
      assert quad == QuadPositions(offset, tileSize);
      assert quadUvs == QuadUvs(tile.spriteIndex, atlas);
      assert quadIndices == QuadIndices(k);
      PrefixStep(tiles, k);
      positions := positions + quad;
      uvs := uvs + quadUvs;
      indices := indices + quadIndices;
      if i + 4 > U16Max {
        return Err(CounterOverflow);
      }
      i := i + 4;
      k := k + 1;
    }
    r := Ok(Mesh(positions, uvs, indices));
    assert tiles[..|tiles|] == tiles;
  }

  lemma PrefixStep(tiles: seq<TileSpec>, k: nat)
    requires k < |tiles|
    ensures tiles[..k + 1][..k] == tiles[..k] && tiles[..k + 1][k] == tiles[k] && |tiles[..k + 1]| == k + 1
  {
  }

  /** The six indices of the `k`-th tile are those of its own quad. */
  lemma {:induction false} TileIndices(n: nat, k: nat)
    requires k < n
    ensures MeshIndices(n)[6 * k..6 * k + 6] == QuadIndices(k)
  {
    if k < n - 1 {
      TileIndices(n - 1, k);
      assert MeshIndices(n)[..6 * (n - 1)] == MeshIndices(n - 1);
      assert MeshIndices(n)[6 * k..6 * k + 6] == MeshIndices(n - 1)[6 * k..6 * k + 6];
    } else {
      assert MeshIndices(n)[6 * (n - 1)..] == QuadIndices(n - 1);
    }
  }

  /** The four positions of the `k`-th tile are its own quad. */
  lemma {:induction false} TilePositions(tiles: seq<TileSpec>, tileSize: real, k: nat)
    requires k < |tiles|
    ensures MeshPositions(tiles, tileSize)[4 * k..4 * k + 4] == QuadPositions(tiles[k].translation, tileSize)
  {
    var n := |tiles|;
    if k < n - 1 {
      TilePositions(tiles[..n - 1], tileSize, k);
      assert MeshPositions(tiles, tileSize)[..4 * (n - 1)] == MeshPositions(tiles[..n - 1], tileSize);
      assert MeshPositions(tiles, tileSize)[4 * k..4 * k + 4] == MeshPositions(tiles[..n - 1], tileSize)[4 * k..4 * k + 4];
    } else {
      assert MeshPositions(tiles, tileSize)[4 * (n - 1)..] == QuadPositions(tiles[n - 1].translation, tileSize);
    }
  }

  /** The four texture coordinates of the `k`-th tile are the corners of its own sprite cell. */
  lemma {:induction false} TileUvs(tiles: seq<TileSpec>, atlas: AtlasConfig, k: nat)
    requires 0 < atlas.cols && 0 < atlas.rows
    requires k < |tiles|
    ensures MeshUvs(tiles, atlas)[4 * k..4 * k + 4] == QuadUvs(tiles[k].spriteIndex, atlas)
  {
    var n := |tiles|;
    if k < n - 1 {
      TileUvs(tiles[..n - 1], atlas, k);
      assert MeshUvs(tiles, atlas)[..4 * (n - 1)] == MeshUvs(tiles[..n - 1], atlas);
      assert MeshUvs(tiles, atlas)[4 * k..4 * k + 4] == MeshUvs(tiles[..n - 1], atlas)[4 * k..4 * k + 4];
    } else {
      assert MeshUvs(tiles, atlas)[4 * (n - 1)..] == QuadUvs(tiles[n - 1].spriteIndex, atlas);
    }
  }

  /** A mesh that builds has every index inside `u16` and inside the position buffer. */
  lemma IndicesFitU16(n: nat)
    requires n <= MaxTiles
    ensures forall j :: 0 <= j < |MeshIndices(n)| ==> MeshIndices(n)[j] <= U16Max && MeshIndices(n)[j] < 4 * n
  {
  }

  /** Twice the signed area of a triangle: positive when its corners run counter-clockwise. */
  function Orientation(a: Vec3, b: Vec3, c: Vec3): real {
    (b.x - a.x) * (c.y - a.y) - (b.y - a.y) * (c.x - a.x)
  }

  /**
   * Both triangles of a quad have the doubled signed area `tileSize`
   * squared: each covers half of the tile, and both wind the same way,
   * counter-clockwise as seen from the camera.
   */
  lemma QuadTrianglesWindAlike(offset: Vec2, tileSize: real)
    ensures var p, q := QuadPositions(offset, tileSize), QuadIndices(0);
      && Orientation(p[q[0]], p[q[1]], p[q[2]]) == tileSize * tileSize
      && Orientation(p[q[3]], p[q[4]], p[q[5]]) == tileSize * tileSize
  {
    var q := QuadIndices(0);
    assert q == [0, 1, 2, 0, 2, 3];
  }

  /**
   * The texture is mapped upright: each corner's texture coordinates are the
   * sprite cell's origin plus the corner's offset within the quad, scaled to
   * the cell, with the vertical axis reversed (texture v grows downwards).
   */
  lemma QuadTextureUpright(offset: Vec2, tileSize: real, spriteIndex: nat, atlas: AtlasConfig, j: nat)
    requires 0 < atlas.cols && 0 < atlas.rows && 0.0 < tileSize && j < 4
    ensures var p, t, o, d := QuadPositions(offset, tileSize)[j], QuadUvs(spriteIndex, atlas)[j], SpriteOrigin(spriteIndex, atlas), CellSize(atlas);
      && t.x == o.x + d.x * ((p.x - offset.x) / tileSize)
      && t.y == o.y + d.y * (1.0 - (p.y - offset.y) / tileSize)
  {
  }

  /**
   * A sprite index inside the atlas, below `cols * rows`, has its whole cell
   * inside the unit texture square; any index past it has its cell below it.
   */
  lemma SpriteCellInsideTexture(spriteIndex: nat, atlas: AtlasConfig)
    requires 0 < atlas.cols && 0 < atlas.rows
    ensures var o, d := SpriteOrigin(spriteIndex, atlas), CellSize(atlas);
      spriteIndex < atlas.cols * atlas.rows <==> (0.0 <= o.x && o.x + d.x <= 1.0 && 0.0 <= o.y && o.y + d.y <= 1.0)
  {
    var col, row := spriteIndex % atlas.cols, spriteIndex / atlas.cols;
    CellWithinUnit(col, atlas.cols);
    CellWithinUnit(row, atlas.rows);
    RowInsideAtlas(spriteIndex, atlas.cols, atlas.rows);
  }

  /** The `k`-th of `n` equal cells of the unit interval starts at or after 0 and ends at or before 1 exactly when `k < n`. */
  lemma CellWithinUnit(k: nat, n: nat)
    requires 0 < n
    ensures 0.0 <= k as real / n as real
    ensures k as real / n as real + 1.0 / n as real <= 1.0 <==> k < n
  {
    var m := n as real;
    assert k as real / m + 1.0 / m == (k + 1) as real / m;
    RealQuotientAtMostOne((k + 1) as real, m);
  }

  lemma RealQuotientAtMostOne(a: real, m: real)
    requires 0.0 < m
    ensures a / m <= 1.0 <==> a <= m
  {
    assert (a / m) * m == a;
    if a / m <= 1.0 {
      assert (a / m) * m <= 1.0 * m;
    } else {
      assert (a / m) * m > 1.0 * m;
    }
  }

  /** An index lies in the first `rows` rows of `cols`-wide rows exactly when it is below `cols * rows`. */
  lemma RowInsideAtlas(idx: nat, cols: nat, rows: nat)
    requires 0 < cols
    ensures idx / cols < rows <==> idx < cols * rows
  {
    var q := idx / cols;
    assert idx == cols * q + idx % cols;
    if q < rows {
      assert cols * q + cols <= cols * rows by {
        assert cols * (q + 1) <= cols * rows;
      }
    } else {
      assert cols * rows <= cols * q;
    }
  }

  /** The vertex counter overflows at the 16384th tile: its `i += 4` reaches 65536. */
  lemma CounterOverflowsAtTile16384()
    ensures 4 * MaxTiles <= U16Max < 4 * (MaxTiles + 1)
  {
  }
}
