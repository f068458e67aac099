/**
 * The map generator (asset_pipeline/world_map_gen.py): two CSV code
 * matrices, one of ground codes and one of obstruction codes, become the
 * Rust source of the tile table.
 *
 * Reading the CSV files and writing the output file are left out: the
 * matrices come in as parameters and the source text is returned. Python's
 * exceptions are `Err` values.
 */
module WorldMapGen {
  import opened Wrappers
  import opened Environment

  datatype PyError = ValueError | IndexError

  /** `GROUND_MAP`: the ground codes the table knows. */
  function GroundCode(code: int): (g: Option<GroundType>)
    ensures g.Some? <==> code in {1, 3, 4}
  {
    if code == 1 then Some(Grass)
    else if code == 3 then Some(DirtH)
    else if code == 4 then Some(DirtV)
    else Option.None
  }

  /** `OBSTRUCTION_MAP`: the obstruction codes the table knows. */
  function ObstructionCode(code: int): (o: Option<ObstructionType>)
    ensures o.Some? <==> code in {-1, 3, 4, 5, 6, 7, 15}
  {
    if code == -1 then Some(ObstructionType.None)
    else if code == 7 then Some(WallV)
    else if code == 6 then Some(WallH)
    else if code == 15 then Some(Tower)
    else if code == 3 then Some(Rock1)
    else if code == 4 then Some(Rock2)
    else if code == 5 then Some(Rock3)
    else Option.None
  }

  /** `GROUND_MAP.get(code, "GroundType::Grass")` */
  function GroundFor(code: int): GroundType {
    var g := GroundCode(code);
    if g.Some? then g.value else Grass
  }

  /** `OBSTRUCTION_MAP.get(code, "ObstructionType::None")` */
  function ObstructionFor(code: int): ObstructionType {
    var o := ObstructionCode(code);
    if o.Some? then o.value else ObstructionType.None
  }

  /** The Rust path the generator writes for a ground type. */
  function GroundPath(g: GroundType): string {
    match g
    case Grass => "GroundType::Grass"
    case DirtH => "GroundType::DirtH"
    case DirtV => "GroundType::DirtV"
  }

  /** The Rust path the generator writes for an obstruction type. */
  function ObstructionPath(o: ObstructionType): string {
    match o
    case None => "ObstructionType::None"
    case WallV => "ObstructionType::WallV"
    case WallH => "ObstructionType::WallH"
    case Tower => "ObstructionType::Tower"
    case Rock1 => "ObstructionType::Rock1"
    case Rock2 => "ObstructionType::Rock2"
    case Rock3 => "ObstructionType::Rock3"
  }

  /** The tile a pair of codes stands for. */
  function TileFor(groundCode: int, obstructionCode: int): Tile {
    Tile(GroundFor(groundCode), ObstructionFor(obstructionCode))
  }

  /** The Rust struct literal of a tile. */
  function TileText(t: Tile): string {
    "Tile { ground: " + GroundPath(t.ground) + ", obstruction: " + ObstructionPath(t.obstruction) + " }"
  }

  /** Unknown codes fall back to grass and to no obstruction. */
  lemma UnknownCodesDefault(groundCode: int, obstructionCode: int)
    requires GroundCode(groundCode).None? && ObstructionCode(obstructionCode).None?
    ensures TileFor(groundCode, obstructionCode) == Tile(Grass, ObstructionType.None)
  {
  }

  /** A generated tile obstructs exactly when its code is one of the six obstruction codes. */
  lemma ObstructingCodes(groundCode: int, obstructionCode: int)
    ensures TileFor(groundCode, obstructionCode).IsObstruction() <==> obstructionCode in {3, 4, 5, 6, 7, 15}
  {
  }

  /** The codes the table in this repository uses, spelled out. */
  lemma KnownCodes()
    ensures TileFor(1, 15) == Tile(Grass, Tower)
    ensures TileFor(3, 7) == Tile(DirtH, WallV) && TileFor(4, -1) == Tile(DirtV, ObstructionType.None)
    ensures TileFor(1, 6) == Tile(Grass, WallH) && TileFor(1, 3) == Tile(Grass, Rock1)
    ensures TileFor(1, 4) == Tile(Grass, Rock2) && TileFor(1, 5) == Tile(Grass, Rock3)
  {
  }

  /** The struct literal determines the tile: distinct tiles are written differently. */
  lemma TileTextInjective(a: Tile, b: Tile)
    requires TileText(a) == TileText(b)
    ensures a == b
  {
    var prefix := "Tile { ground: ";
    var ga, gb := GroundPath(a.ground), GroundPath(b.ground);
    assert |ga| == |gb| == 17;
    assert TileText(a)[|prefix|..|prefix| + 17] == ga;
    assert TileText(b)[|prefix|..|prefix| + 17] == gb;
    var oa, ob := ObstructionPath(a.obstruction), ObstructionPath(b.obstruction);
    var start := |prefix| + 17 + |", obstruction: "|;
    assert TileText(a)[start..] == oa + " }";
    assert TileText(b)[start..] == ob + " }";
    assert oa == (oa + " }")[..|oa + " }"| - 2];
    assert ob == (ob + " }")[..|ob + " }"| - 2];
  }

  /**
   * Every ground cell has an obstruction cell at the same place; a ground
   * row with no cells reads nothing from the obstruction matrix.
   */
  predicate Covers(ground: seq<seq<int>>, obstruction: seq<seq<int>>) {
    forall gy :: 0 <= gy < |ground| && 0 < |ground[gy]| ==> gy < |obstruction| && |ground[gy]| <= |obstruction[gy]|
  }

  /** `m` is the tile matrix of the two code matrices: the ground's shape, one tile literal per cell. */
  predicate IsTileMatrix(m: seq<seq<string>>, ground: seq<seq<int>>, obstruction: seq<seq<int>>)
    requires Covers(ground, obstruction)
  {
    && |m| == |ground|
    && (forall gy :: 0 <= gy < |m| ==> |m[gy]| == |ground[gy]|)
    && (forall gy, gx :: 0 <= gy < |m| && 0 <= gx < |m[gy]| ==>
          m[gy][gx] == TileText(TileFor(ground[gy][gx], obstruction[gy][gx])))
  }

  /**
   * `make_tile_matrix`: walks the ground matrix row by row and reads the
   * obstruction code at each cell; a missing obstruction cell raises
   * `IndexError`.
   */
  method MakeTileMatrix(ground: seq<seq<int>>, obstruction: seq<seq<int>>) returns (r: Result<seq<seq<string>>, PyError>)
    ensures r.Err? <==> !Covers(ground, obstruction)
    ensures r.Err? ==> r.error == IndexError
    ensures r.Ok? ==> IsTileMatrix(r.value, ground, obstruction)
  {
    var tiles: seq<seq<string>> := [];
    var gy := 0;
    while gy < |ground|
      invariant 0 <= gy <= |ground| && |tiles| == gy
      invariant forall y :: 0 <= y < gy ==> RowMatches(tiles[y], ground, obstruction, y)
    {
      var row := ground[gy];
      var tileRow: seq<string> := [];
      var gx := 0;
      while gx < |row|
        invariant 0 <= gx <= |row| && |tileRow| == gx
        invariant 0 < gx ==> gy < |obstruction| && gx <= |obstruction[gy]|
        invariant forall x :: 0 <= x < gx ==>
          x < |obstruction[gy]| && tileRow[x] == TileText(TileFor(row[x], obstruction[gy][x]))
      {
        if gy >= |obstruction| || gx >= |obstruction[gy]| {
          return Err(IndexError);
        }
        var oval := obstruction[gy][gx];
        tileRow := tileRow + [TileText(Tile(GroundFor(row[gx]), ObstructionFor(oval)))];
        gx := gx + 1;
      }
      assert RowMatches(tileRow, ground, obstruction, gy);
      tiles := tiles + [tileRow];
      gy := gy + 1;
    }
    forall y | 0 <= y < |ground|
      ensures 0 < |ground[y]| ==> y < |obstruction| && |ground[y]| <= |obstruction[y]|
      ensures |tiles[y]| == |ground[y]|
    {
      assert RowMatches(tiles[y], ground, obstruction, y);
    }
    r := Ok(tiles);
  }

  /** Row `y` of a tile matrix: the ground row's length, and each cell's tile literal. */
  predicate RowMatches(row: seq<string>, ground: seq<seq<int>>, obstruction: seq<seq<int>>, y: nat)
    requires y < |ground|
  {
    && |row| == |ground[y]|
    && (0 < |row| ==> y < |obstruction| && |row| <= |obstruction[y]|)
    && forall x :: 0 <= x < |row| ==> row[x] == TileText(TileFor(ground[y][x], obstruction[y][x]))
  }

  /** Python's `sep.join(parts)`. */
  function Join(sep: string, parts: seq<string>): string {
    if |parts| == 0 then ""
    else if |parts| == 1 then parts[0]
    else parts[0] + sep + Join(sep, parts[1..])
  }

  /** The line of source text for one row of tile literals. */
  function RowLine(row: seq<string>): string {
    "    [" + Join(", ", row) + "]"
  }

  /** The row lines of a tile matrix, in order. */
  function RowLines(tileMatrix: seq<seq<string>>): (lines: seq<string>)
    ensures |lines| == |tileMatrix|
  {
    seq(|tileMatrix|, i requires 0 <= i < |tileMatrix| => RowLine(tileMatrix[i]))
  }

  /** The array literal written for a tile matrix. */
  function MatrixText(tileMatrix: seq<seq<string>>): string {
    "[\n" + Join(",\n", RowLines(tileMatrix)) + "\n];"
  }

  /**
   * `format_rust_matrix`: an opening bracket line, the row lines separated
   * by commas and line breaks, and a closing `];` line.
   */
  method FormatRustMatrix(tileMatrix: seq<seq<string>>) returns (text: string)
    ensures text == MatrixText(tileMatrix)
  {
    var rows: seq<string> := [];
    var i := 0;
    while i < |tileMatrix|
      invariant 0 <= i <= |tileMatrix| && |rows| == i
      invariant forall k :: 0 <= k < i ==> rows[k] == RowLine(tileMatrix[k])
    {
      rows := rows + ["    [" + Join(", ", tileMatrix[i]) + "]"];
      i := i + 1;
    }
    assert rows == RowLines(tileMatrix);
    text := "[\n" + Join(",\n", rows) + "\n];";
  }

  /** Number of occurrences of `c` in `s`. */
  function Count(s: string, c: char): (n: nat)
    ensures n <= |s|
  {
    if |s| == 0 then 0 else (if s[0] == c then 1 else 0) + Count(s[1..], c)
  }

  lemma {:induction false} CountAppend(a: string, b: string, c: char)
    ensures Count(a + b, c) == Count(a, c) + Count(b, c)
  {
    if |a| == 0 {
      assert a + b == b;
    } else {
      assert (a + b)[1..] == a[1..] + b;
      CountAppend(a[1..], b, c);
    }
  }

  /** Joining parts that hold no `c` with a separator holding one `c` adds one `c` per gap. */
  lemma {:induction false} CountJoin(sep: string, parts: seq<string>, c: char)
    requires 0 < |parts| && Count(sep, c) == 1
    requires forall k :: 0 <= k < |parts| ==> Count(parts[k], c) == 0
    ensures Count(Join(sep, parts), c) == |parts| - 1
  {
    if |parts| > 1 {
      CountJoin(sep, parts[1..], c);
      CountAppend(parts[0] + sep, Join(sep, parts[1..]), c);
      CountAppend(parts[0], sep, c);
    }
  }

  /** Joining parts that hold no `c` with a separator that holds none gives a text with none. */
  lemma {:induction false} CountJoinNone(sep: string, parts: seq<string>, c: char)
    requires Count(sep, c) == 0
    requires forall k :: 0 <= k < |parts| ==> Count(parts[k], c) == 0
    ensures Count(Join(sep, parts), c) == 0
  {
    if |parts| > 1 {
      CountJoinNone(sep, parts[1..], c);
      CountAppend(parts[0] + sep, Join(sep, parts[1..]), c);
      CountAppend(parts[0], sep, c);
    }
  }

  /**
   * When no tile literal holds a line break, the formatted matrix has one
   * line per row between the bracket lines: `rows + 1` line breaks for a
   * matrix with rows, and two for the empty matrix.
   */
  lemma FormattedLineCount(tileMatrix: seq<seq<string>>)
    requires forall i, j :: 0 <= i < |tileMatrix| && 0 <= j < |tileMatrix[i]| ==> Count(tileMatrix[i][j], '\n') == 0
    ensures Count(MatrixText(tileMatrix), '\n') == if |tileMatrix| == 0 then 2 else |tileMatrix| + 1
  {
    var lines := RowLines(tileMatrix);
    forall k | 0 <= k < |lines|
      ensures Count(lines[k], '\n') == 0
    {
      CountJoinNone(", ", tileMatrix[k], '\n');
      CountAppend("    [", Join(", ", tileMatrix[k]), '\n');
      CountAppend("    [" + Join(", ", tileMatrix[k]), "]", '\n');
    }
    if |lines| > 0 {
      CountJoin(",\n", lines, '\n');
    }
    CountAppend("[\n", Join(",\n", lines), '\n');
    CountAppend("[\n" + Join(",\n", lines), "\n];", '\n');
  }

  /** The tile matrix of two code matrices. */
  function TileMatrix(ground: seq<seq<int>>, obstruction: seq<seq<int>>): (m: seq<seq<string>>)
    requires Covers(ground, obstruction)
    ensures IsTileMatrix(m, ground, obstruction)
  {
    seq(|ground|, gy requires 0 <= gy < |ground| =>
      seq(|ground[gy]|, gx requires 0 <= gx < |ground[gy]| => TileText(TileFor(ground[gy][gx], obstruction[gy][gx]))))
  }

  /** There is one tile matrix for a pair of code matrices. */
  lemma TileMatrixUnique(m: seq<seq<string>>, ground: seq<seq<int>>, obstruction: seq<seq<int>>)
    requires Covers(ground, obstruction) && IsTileMatrix(m, ground, obstruction)
    ensures m == TileMatrix(ground, obstruction)
  {
    var t := TileMatrix(ground, obstruction);
    forall gy | 0 <= gy < |m|
      ensures m[gy] == t[gy]
    {
    }
  }

  /** Both matrices have the same number of rows, and matching rows the same length. */
  predicate SameShape(ground: seq<seq<int>>, obstruction: seq<seq<int>>) {
    |ground| == |obstruction| && forall i :: 0 <= i < |ground| ==> |ground[i]| == |obstruction[i]|
  }

  /** Matrices that pass the size check have an obstruction code for every ground cell. */
  lemma SameShapeCovers(ground: seq<seq<int>>, obstruction: seq<seq<int>>)
    requires SameShape(ground, obstruction)
    ensures Covers(ground, obstruction)
  {
  }

  /** Every row holds the same number of cells. */
  predicate Rectangular(m: seq<seq<int>>) {
    forall i :: 0 <= i < |m| ==> |m[i]| == |m[0]|
  }

  /**
   * The lengths in a nested array type `[[Tile; inner]; outer]`: `outer`
   * arrays of `inner` tiles each.
   */
  datatype ArrayDims = ArrayDims(outer: nat, inner: nat)

  /** The array literal `m` has the type with dimensions `d`. */
  predicate Describes(d: ArrayDims, m: seq<seq<string>>) {
    |m| == d.outer && forall i :: 0 <= i < |m| ==> |m[i]| == d.inner
  }

  /** The dimensions `main` writes: the row count as the inner length and the column count as the outer. */
  function HeaderDimsAsWritten(ground: seq<seq<int>>): (d: ArrayDims)
    requires 0 < |ground|
    ensures d.inner == |ground| && d.outer == |ground[0]|
  {
    ArrayDims(|ground[0]|, |ground|)
  }

  /** The dimensions the table needs: as many outer entries as rows, as many inner as columns. */
  function HeaderDims(ground: seq<seq<int>>): (d: ArrayDims)
    requires 0 < |ground|
    ensures d.outer == |ground| && d.inner == |ground[0]|
  {
    ArrayDims(|ground|, |ground[0]|)
  }

  /**
   * For a map of two rows of three cells, the type written does not match
   * the literal written under it, so the generated Rust does not compile.
   */
  lemma HeaderAsWrittenMismatch()
    ensures var g := [[1, 1, 1], [1, 1, 1]];
      SameShape(g, g) && Rectangular(g) && !Describes(HeaderDimsAsWritten(g), TileMatrix(g, g))
  {
    var g := [[1, 1, 1], [1, 1, 1]];
    assert |TileMatrix(g, g)| == 2;
  }

  /** On a square map the two orders coincide, as on the 11 by 11 map of this repository. */
  lemma SquareHeadersAgree(ground: seq<seq<int>>)
    requires 0 < |ground| && |ground[0]| == |ground|
    ensures HeaderDimsAsWritten(ground) == HeaderDims(ground)
  {
  }

  /** The declared type matches the generated literal for every rectangular map. */
  lemma HeaderDimsDescribeMatrix(ground: seq<seq<int>>, obstruction: seq<seq<int>>)
    requires SameShape(ground, obstruction) && Rectangular(ground) && 0 < |ground|
    ensures Covers(ground, obstruction) && Describes(HeaderDims(ground), TileMatrix(ground, obstruction))
  {
  }

  /** Decimal digits of a natural number, as Python's `str`. */
  function NatToString(n: nat): (s: string)
    ensures 0 < |s|
    ensures forall i :: 0 <= i < |s| ==> '0' <= s[i] <= '9'
  {
    var digit := ['0' + (n % 10) as char];
    if n < 10 then digit else NatToString(n / 10) + digit
  }

  /** The type text `[[Tile; inner]; outer]`. */
  function TypeText(d: ArrayDims): string {
    "[[Tile; " + NatToString(d.inner) + "]; " + NatToString(d.outer) + "]"
  }

  /** The whole generated file for a declared type and a tile matrix. */
  function RustSource(d: ArrayDims, tileMatrix: seq<seq<string>>): string {
    "// Auto-generated tile map\nuse super::{GroundType, ObstructionType, Tile};\n\n"
    + "pub const TILE_MAP: " + TypeText(d) + " = " + MatrixText(tileMatrix) + "\n"
  }

  /**
   * `main` between reading and writing: the size check (`ValueError`), the
   * tile matrix, its text, and the header, which reads the first row and
   * so raises `IndexError` on an empty map. The header is the one `main`
   * writes, HeaderDimsAsWritten, with the row count as the inner length.
   */
  method GenerateRustSource(ground: seq<seq<int>>, obstruction: seq<seq<int>>) returns (r: Result<string, PyError>)
    ensures r == Err(ValueError) <==> !SameShape(ground, obstruction)
    ensures r == Err(IndexError) <==> SameShape(ground, obstruction) && |ground| == 0
    ensures r.Ok? ==>
      && SameShape(ground, obstruction) && 0 < |ground|
      && r.value == RustSource(HeaderDimsAsWritten(ground), TileMatrix(ground, obstruction))
  {
    if |ground| != |obstruction| || exists i :: 0 <= i < |ground| && |ground[i]| != |obstruction[i]| {
      return Err(ValueError);
    }
    SameShapeCovers(ground, obstruction);
    var made := MakeTileMatrix(ground, obstruction);
    var tiles := made.value;
    TileMatrixUnique(tiles, ground, obstruction);
    var rustMatrix := FormatRustMatrix(tiles);
    if |ground| == 0 {
      return Err(IndexError);
    }
    var prelude := "// Auto-generated tile map\nuse super::{GroundType, ObstructionType, Tile};\n\n";
    var typeText := "[[Tile; " + NatToString(|ground|) + "]; " + NatToString(|ground[0]|) + "]";
    assert typeText == TypeText(HeaderDimsAsWritten(ground));
    r := Ok(prelude + "pub const TILE_MAP: " + typeText + " = " + rustMatrix + "\n");
  }

  /**
   * The generated file with the header the table needs: the same checks
   * and the same literal as GenerateRustSource, under HeaderDims.
   */
  function CorrectedRustSource(ground: seq<seq<int>>, obstruction: seq<seq<int>>): (r: Result<string, PyError>)
    ensures r == Err(ValueError) <==> !SameShape(ground, obstruction)
    ensures r == Err(IndexError) <==> SameShape(ground, obstruction) && |ground| == 0
    ensures r.Ok? ==> SameShape(ground, obstruction) && 0 < |ground|
    ensures r.Ok? && Rectangular(ground) ==>
      exists d :: Describes(d, TileMatrix(ground, obstruction)) && r.value == RustSource(d, TileMatrix(ground, obstruction))
  {
    if !SameShape(ground, obstruction) then Err(ValueError)
    else if |ground| == 0 then Err(IndexError)
    else
      var d := HeaderDims(ground);
      assert Rectangular(ground) ==> Describes(d, TileMatrix(ground, obstruction)) by {
        if Rectangular(ground) {
          HeaderDimsDescribeMatrix(ground, obstruction);
        }
      }
      Ok(RustSource(d, TileMatrix(ground, obstruction)))
  }

  /**
   * On every rectangular map that is not square, the file `main` writes
   * declares a type its own literal does not have.
   */
  lemma HeaderAsWrittenMisdescribes(ground: seq<seq<int>>, obstruction: seq<seq<int>>)
    requires SameShape(ground, obstruction) && Rectangular(ground) && 0 < |ground| && |ground[0]| != |ground|
    ensures Covers(ground, obstruction) && !Describes(HeaderDimsAsWritten(ground), TileMatrix(ground, obstruction))
  {
  }

  /** On a square map the file `main` writes is the corrected one. */
  lemma SquareMapsGenerateCorrectSource(ground: seq<seq<int>>, obstruction: seq<seq<int>>)
    requires SameShape(ground, obstruction) && 0 < |ground| && |ground[0]| == |ground|
    ensures Covers(ground, obstruction)
    ensures CorrectedRustSource(ground, obstruction) == Ok(RustSource(HeaderDimsAsWritten(ground), TileMatrix(ground, obstruction)))
  {
    SquareHeadersAgree(ground);
  }
}
