# bevy_maze in Dafny

This is a model of the game logic of bevy_maze, a small Bevy maze game, and of its
asset-pipeline script that generates the map table. The maze is an 11 by 11 grid of
tiles. Each tile has a ground type and possibly an obstruction (a wall, tower or rock).
The player moves with the keyboard, and the movement system stops the player at
obstructions. Once the player's footprint lies inside the finish line, the maze
progress state machine asks for `Finish`.

The project has one Dafny module per source file, plus two small helper modules:
`Wrappers` (`Option`, `Result`) and `Vectors` (`Vec2`, `Vec3` over `real`).

- `Coordinates`, `Hitboxes` and `Spaces` model the geometry:
  - grid cells and their floor, round and truncate conversions;
  - axis-aligned hitboxes with inclusive tests;
  - the two coordinate spaces. Array space has its origin at the top left with y
    pointing down. Render space has its origin at the map centre with y pointing up.
- `Environment` and `WorldMapArray` model the tile types and their atlas indices, the
  bounds-checked map lookup, the list of sprites the map is drawn with, and the
  compiled-in map.
- `Movement` models `apply_movement`, the per-axis collision resolver, as methods that
  follow the code branch by branch. The methods are proved equal to specification
  functions (`ResolveX`, `ResolveY`, `MovedAll`). `MovementProperties` proves what
  those functions guarantee:
  - An entity is never moved into an obstructing probed cell it did not already overlap.
  - The entity never overshoots its step.
  - A step longer than the probe distance passes through a one-tile obstruction.
  - Touching a wall on the side counts as a hit, so an entity can be pushed back or
    held in place.
  - Sliding along a wall works in one case and is proved there.
- `Maze` models the progress state machine. `ProgressMachine` holds Bevy's current and
  next state resources, and `DetectFinishLineCrossing` is the finish-line test.
- `Animation` models the player animation component as a class with its timer, frame
  and state, plus the intent-to-state mapping.
- `Player` models the keyboard intent and the player spawn parameters.
- `TileMesh` models the vertex, texture-coordinate and index buffers of the tile mesh
  builder.
- `WorldMapGen` models the map generator script: code tables, tile matrix, Rust text,
  size check and header.

Floating-point `f32` values are modelled as mathematical reals. A float-to-`i32` cast
saturates, and the model writes that out. The source refers to several helpers whose
definitions are not part of this model. They are given these minimal definitions:

- `Hitbox::from_rounded_corners` behaves as `from_corners`.
- `contains_hitbox` is inclusive containment on all four edges.
- `Tile::hitbox(c)` is the unit square of cell `c`.
- `HALF_TILE_DIM` is 0.5.
- `Direction` is North, South, East or West.

Bevy's repeating `Timer` is modelled by its duration, the time elapsed in the current
period and whether a period ended during the last tick, in whole milliseconds.

`normalize_or_zero` is applied only to raw keyboard intents, whose components are -1, 0
or 1. A diagonal component becomes 0.70710677, the `f32` nearest to 1/√2.

In `build_tile_mesh`, a debug build panics in two cases: a remainder by a zero column
count, and the `u16` vertex counter passing 65535. These panics are modelled as error
results.

Four behaviours of the code are worth stating outright, because a reader of the
game could expect otherwise:

- The resolver looks for obstructions only in the two cells half a tile past the
  entity's leading edge, at the position before the step. A step longer than a tile
  can therefore pass an obstruction: an entity at (4.5, 5.5) moving 2.0 east past a
  tower on (5, 5) lands at x = 6.5 (`TunnelsThroughThinObstruction`).
- When a probed cell is off the map, the entity does not move on that axis at all
  (`Movement.AxisOutcome`).
- `Finish` is requested on every frame in which the player is inside the finish line,
  whatever the current state; `DetectIdempotent` shows that repeating the request
  leaves the same next state.
- An entity with a zero intent makes `apply_movement` `return` from the whole system,
  so the entities after it in the query do not move in that frame (`ApplyMovement`).

## Model

| member | source | states |
|---|---|---|
| Coordinates.SaturateI32 | src/gameplay/environment/coordinate.rs:21-26 | a float-to-`i32` cast keeps in-range values and clamps values below or above the `i32` range to its ends |
| Coordinates.RoundHalfAwayFromZero | src/gameplay/environment/coordinate.rs:29-34 | `round` is within 0.5 of its argument, and exact halves go away from zero |
| Coordinates.TruncateTowardZero | src/gameplay/environment/coordinate.rs:37-42 | the cast moves toward zero, lies between 0 and its argument, is within 1 of it, and equals floor for non-negative values |
| Coordinates.Coordinate.FromVec2Floor | src/gameplay/environment/coordinate.rs:21-26 | for components in `i32` range, the cell `c` satisfies `c <= v < c + 1` on each axis |
| Coordinates.Coordinate.FromVec2Round | src/gameplay/environment/coordinate.rs:29-34 | for components in `i32` range, the cell is within half a tile of `v` on each axis |
| Coordinates.Coordinate.FromVec2Trunc | src/gameplay/environment/coordinate.rs:37-42 | the cell is within one tile of `v` on each axis and agrees with the floor conversion on non-negative vectors |
| Coordinates.FloorOfCornerIsCell | src/gameplay/environment/coordinate.rs:16-26 | flooring a cell's `to_vec2` gives that cell back |
| Coordinates.FloorIsUniqueCell | src/gameplay/environment/coordinate.rs:46-50 | the `From<Vec2>` (floor) conversion gives the only cell whose unit square half-open contains the point |
| Coordinates.TruncDiffersFromFloorBelowZero | src/gameplay/environment/coordinate.rs:37-42 | on a negative non-integer x, truncation gives the cell one to the right of floor |
| Hitboxes.Rect.FromCorners | src/gameplay/utils/hitbox.rs:24-28 | the rect orders its corners: `min <= max` on each axis, taken from the two points |
| Hitboxes.Hitbox.New | src/gameplay/utils/hitbox.rs:16-22 | a hitbox exists exactly when the rect is not empty or inverted (the assertion would fail otherwise); it keeps the rect and has positive width and height |
| Hitboxes.Hitbox.FromCorners | src/gameplay/utils/hitbox.rs:24-58 | the box is ordered, contains both corners, and its width and height are the absolute differences of the corners |
| Hitboxes.Hitbox.Translate | src/gameplay/utils/hitbox.rs:61-65 | all four edges move by `delta` and the width and height stay the same |
| Hitboxes.IntersectsSymmetricReflexive | src/gameplay/utils/hitbox.rs:73-78 | `intersects` is symmetric, and every ordered box intersects itself |
| Hitboxes.CornersContained | src/gameplay/utils/hitbox.rs:68-70 | `contains` is inclusive: all four corners of an ordered box are inside it |
| Hitboxes.IntersectsIffCommonPoint | src/gameplay/utils/hitbox.rs:68-78 | two ordered boxes intersect exactly when some point is contained in both, so touching boxes intersect |
| Hitboxes.OverlapImpliesIntersects | src/gameplay/utils/hitbox.rs:73-78 | boxes whose interiors overlap intersect; boxes that share only an edge do not overlap |
| Spaces.FlippedYAxis | src/gameplay/utils/mod.rs:47-52 | the flip is negation |
| Spaces.WorldArrayPositionFromRenderPosition | src/gameplay/utils/mod.rs:19-23 | render (x, y) maps to array (x + 5.5, 5.5 - y) for an 11-tile screen |
| Spaces.RenderXFromWorldArrayX | src/gameplay/utils/mod.rs:32-36 | array x maps to render x - 5.5 |
| Spaces.RenderYFromWorldArrayY | src/gameplay/utils/mod.rs:38-42 | array y maps to render 5.5 - y |
| Spaces.RenderPositionFromWorldArrayPosition | src/gameplay/utils/mod.rs:25-30 | the pair of the two per-axis maps |
| Spaces.CoordinateTranslation | src/gameplay/utils.rs:5-8 | `coordinate_translation(x, y)` is the render position of the centre of cell (x, y) |
| Spaces.RoundTrips | src/gameplay/utils/mod.rs:19-42 | render to array to render and array to render to array are both the identity |
| Spaces.FlipInvolution | src/gameplay/utils/mod.rs:47-52 | flipping twice is the identity |
| Spaces.CentreTileAtOrigin | src/gameplay/utils.rs:6-7 | cell (5, 5) is drawn at the render origin |
| Spaces.CoordinateTranslationMonotone | src/gameplay/utils.rs:7 | a larger column is further right, and a larger row is lower on the screen |
| Environment.GroundType.AtlasIndex | src/gameplay/environment.rs:30-38 | every ground type has a sprite, one of 2, 3, 4 |
| Environment.ObstructionType.AtlasIndex | src/gameplay/environment.rs:40-52 | only `None` has no sprite; the others use 15, 16, 17, 30, 31 or 32 |
| Environment.Tile.Hitbox | src/gameplay/movement.rs:98-99 | a tile's box at cell `c` is the unit square with top-left corner `c` |
| Environment.ObstructionIffObstructionSprite | src/gameplay/environment.rs:40-64 | a tile obstructs exactly when its obstruction has a sprite, i.e. is not `None` |
| Environment.WorldMap.At | src/gameplay/environment.rs:75-85 | a tile is returned exactly when the cell is inside the 11 by 11 grid, and it is `grid[y][x]` |
| Environment.WorldMap.AtPosition | src/gameplay/environment.rs:75-85 | a position finds a tile exactly when both of its components lie in [0, 11) |
| Environment.AtPositionIsAtFloorCell | src/gameplay/environment.rs:75-85 | looking up a position is looking up its floor cell, so the `Vec2` and `Coordinate` uses agree |
| Environment.LocalEnvironmentObjects | src/gameplay/environment.rs:98-124 | the nested walk produces the row-major list of sprites, ground first and then the obstruction if any, each placed at its cell's render position |
| Environment.RowEntriesCount | src/gameplay/environment.rs:103-121 | a row of n tiles gives n ground sprites plus one per obstructing tile |
| Environment.GridEntriesCount | src/gameplay/environment.rs:98-124 | the whole map gives 11 sprites per row plus one per obstructing tile |
| Environment.RowEntriesBelongToCells | src/gameplay/environment.rs:107-121 | each sprite of a row sits at one of its cells, with that cell's ground or obstruction sprite |
| Environment.GridEntriesBelongToCells | src/gameplay/environment.rs:98-124 | each sprite of the map sits at one of its cells, with that cell's ground or obstruction sprite |
| WorldMapArray.DefaultWorldMap | src/gameplay/environment.rs:88-94 | the default world map is the compiled-in table, which is 11 rows of 11 tiles |
| WorldMapArray.NorthAndSouthWallsClosed | src/environment/world_map_array.rs:4-510 | rows 0 and 10 are obstructions from end to end |
| WorldMapArray.FinishCellsOpen | src/environment/world_map_array.rs:51-142 | the finish-line cells (10, 1) and (10, 2) are open |
| WorldMapArray.SpawnCellOpen | src/environment/world_map_array.rs:72-75 | the spawn cell (5, 1) is open |
| WorldMapArray.WestBoundaryGap | src/environment/world_map_array.rs:373-464 | column 0 is open at rows 8 and 9 |
| WorldMapArray.Row7Passage | src/environment/world_map_array.rs:327-372 | row 7 obstructs exactly at columns 0 to 7 and 10 |
| WorldMapArray.WallNeighbourhoods | src/environment/world_map_array.rs:97-372 | the wall and open cells that the movement examples use |
| WorldMapArray.RowObstructions0 | src/environment/world_map_array.rs:5-50 | row 0 has 11 obstructing tiles |
| WorldMapArray.RowObstructions1 | src/environment/world_map_array.rs:51-96 | row 1 has 1 |
| WorldMapArray.RowObstructions2 | src/environment/world_map_array.rs:97-142 | row 2 has 2 |
| WorldMapArray.RowObstructions3 | src/environment/world_map_array.rs:143-188 | row 3 has 7 |
| WorldMapArray.RowObstructions4 | src/environment/world_map_array.rs:189-234 | row 4 has 3 |
| WorldMapArray.RowObstructions5 | src/environment/world_map_array.rs:235-280 | row 5 has 2 |
| WorldMapArray.RowObstructions6 | src/environment/world_map_array.rs:281-326 | row 6 has 2 |
| WorldMapArray.RowObstructions7 | src/environment/world_map_array.rs:327-372 | row 7 has 9 |
| WorldMapArray.RowObstructions8 | src/environment/world_map_array.rs:373-418 | row 8 has 1 |
| WorldMapArray.RowObstructions9 | src/environment/world_map_array.rs:419-464 | row 9 has 1 |
| WorldMapArray.RowObstructions10 | src/environment/world_map_array.rs:465-510 | row 10 has 11 |
| WorldMapArray.DefaultSpriteCount | src/gameplay/environment.rs:98-124 | the default map has 50 obstructions and so is drawn with 171 sprites |
| Movement.FootprintIsFromCorners | src/gameplay/movement.rs:68-71 | the resolver's footprint is the box `from_corners` builds from position ± half girth |
| Movement.HaltIndex | src/gameplay/movement.rs:57-60 | the index of the first entity with no intent or no girth, before which every entity moves |
| Movement.MoveAlongX | src/gameplay/movement.rs:72-146 | the x phase changes only the translation's x, to the render image of `ResolveX` |
| Movement.MoveAlongY | src/gameplay/movement.rs:147-227 | from the footprint rebuilt at the current translation, the y phase changes only y, to the render image of `ResolveY` |
| Movement.MoveEast | src/gameplay/movement.rs:73-109 | the branch for moving right: full step, flush against the first probe's left face, or no move off the map, as `ResolveX` says |
| Movement.MoveWest | src/gameplay/movement.rs:110-146 | the branch for moving left, snapping to the first probe's right face |
| Movement.MoveSouth | src/gameplay/movement.rs:155-190 | the branch for moving down the array, snapping to the first probe's top face |
| Movement.MoveNorth | src/gameplay/movement.rs:191-227 | the branch for moving up the array, snapping to the first probe's bottom face |
| Movement.MoveEntity | src/gameplay/movement.rs:63-227 | both phases, x then y, give the translation `MovedTranslation` describes; z is kept |
| Movement.MoveController | src/gameplay/movement.rs:61-71 | the step is `max_speed * intent * delta` and both phases are applied with half the girth |
| Movement.MovedAll | src/gameplay/movement.rs:57-232 | one translation per entity |
| Movement.MovedAllPointwise | src/gameplay/movement.rs:57-60 | entities before the halting one are moved, and it and all later ones keep their translation |
| Movement.MovedAllSplit | src/gameplay/movement.rs:57-232 | a run over a prefix with no halting entity, followed by a run over the rest, is a run over all |
| Movement.MovedAllExtend | src/gameplay/movement.rs:57-232 | one more moving entity adds its own move to the result |
| Movement.MovedAllStop | src/gameplay/movement.rs:57-60 | at the first entity with no intent or girth the run ends and the rest keep their translations |
| Movement.MoveNext | src/gameplay/movement.rs:57-232 | one pass of the loop writes entity i's moved translation and nothing else |
| Movement.ApplyMovement | src/gameplay/movement.rs:52-233 | the translations become `MovedAll` of the old ones; the system panics (`todo!`) exactly when the first halting entity has an intent but no girth |
| MovementProperties.NoPenetrationEast | src/gameplay/movement.rs:98-104 | moving right never ends overlapping an obstructing probed cell the footprint did not overlap before |
| MovementProperties.NoPenetrationWest | src/gameplay/movement.rs:134-140 | the same moving left |
| MovementProperties.NoPenetrationSouth | src/gameplay/movement.rs:179-185 | the same moving down the array |
| MovementProperties.NoPenetrationNorth | src/gameplay/movement.rs:215-221 | the same moving up the array |
| MovementProperties.NoOvershootX | src/gameplay/movement.rs:73-146 | the x phase never goes further than the step asked for, and a zero step does not move |
| MovementProperties.NoOvershootY | src/gameplay/movement.rs:155-227 | the y phase never goes further than the step asked for, and a zero step does not move |
| MovementProperties.TunnelsThroughThinObstruction | src/gameplay/movement.rs:80-107 | with one tower at (5, 5), a 0.2 step east ends flush at 4.6, but a 2.0 step lands past it at 6.5 |
| MovementProperties.PushedBackAlongWallTop | src/gameplay/movement.rs:80-104 | an entity resting on top of a wall is pushed back west by any step east of up to 1.6 |
| MovementProperties.PushedBackOnDefaultMap | src/gameplay/movement.rs:80-104 | this happens on the compiled-in map along row 7 |
| MovementProperties.StuckAgainstEastWall | src/gameplay/movement.rs:161-185 | an entity touching a wall on its east cannot move down the array along it |
| MovementProperties.StuckOnDefaultMap | src/gameplay/movement.rs:161-185 | this happens on the compiled-in map along column 10 |
| MovementProperties.SlidesAlongWall | src/gameplay/movement.rs:110-190 | moving west and south next to a wall on the west stops flush on x and takes the whole step on y |
| MovementProperties.StopsAtWestWall | src/gameplay/movement.rs:116-140 | the x half of that slide |
| MovementProperties.SouthStepIsFree | src/gameplay/movement.rs:161-177 | the y half of that slide |
| MovementProperties.SlidesOnDefaultMap | src/gameplay/movement.rs:110-190 | the slide on the compiled-in map's west wall |
| Maze.FinishLineHitbox | src/gameplay/maze.rs:56-66 | the finish line spans (10, 1) to (11, 3) in array space: one tile wide and two high |
| Maze.PlayerHitbox | src/gameplay/maze.rs:103-113 | the player's footprint is an ordered box |
| Maze.Single | src/gameplay/maze.rs:99-100 | `single` succeeds exactly when there is one match, and returns it |
| Maze.ProgressMachine.constructor | src/gameplay/maze.rs:33-40 | the initial state is the default `None`, with no request pending |
| Maze.ProgressMachine.Set | src/gameplay/maze.rs:117 | `NextState::set` records the request and leaves the current state alone |
| Maze.ProgressMachine.InitMaze | src/gameplay/maze.rs:48-50 | entering gameplay requests `Start` |
| Maze.ProgressMachine.StartSeeking | src/gameplay/maze.rs:52-54 | entering `Start` requests `Seeking` |
| Maze.ProgressMachine.ApplyTransition | src/gameplay/maze.rs:20-23 | a pending request becomes the current state, is consumed, and is the state entered |
| Maze.ProgressMachine.DetectFinishLineCrossing | src/gameplay/maze.rs:94-121 | the pending request becomes `AfterDetect` of the queries and the old request; the current state is not changed |
| Maze.AfterDetect | src/gameplay/maze.rs:94-121 | the test can only add a `Finish` request, and it adds one whenever the player has crossed |
| Maze.FinishRequestedIffCrossed | src/gameplay/maze.rs:99-118 | starting from any other request, `Finish` is requested exactly when there is one finish line, one player with a girth, and the footprint lies inside the finish line |
| Maze.GirthlessNeverFinishes | src/gameplay/maze.rs:108 | a player without girth never changes the request |
| Maze.DetectIdempotent | src/gameplay/maze.rs:114-118 | running the test again gives the same request, so repeating it every frame is harmless |
| Maze.AmbiguousQueriesNeverFinish | src/gameplay/maze.rs:99-100 | with zero or several finish lines or players, nothing is requested |
| Maze.FillingTheFinishLineFinishes | src/gameplay/maze.rs:103-117 | a 1 by 2 player centred on the finish line finishes, because containment is inclusive |
| Maze.WidePlayerNeverFinishes | src/gameplay/maze.rs:108-117 | a player wider than one tile can never finish |
| Maze.EnterGameplay | src/gameplay/maze.rs:22-23 | from the initial state, entering gameplay and then `Start` ends in `Seeking` with nothing pending |
| Animation.Timer.New | src/gameplay/animation.rs:104 | a fresh repeating timer has nothing elapsed and is not finished |
| Animation.Timer.Tick | src/gameplay/animation.rs:124-125 | it finishes exactly when the elapsed time reaches the duration, and the elapsed time wraps into the next period |
| Animation.WrapOnce | src/gameplay/animation.rs:124-125 | reducing a time below two periods subtracts at most one period |
| Animation.FrameCount | src/gameplay/animation.rs:93-100 | 2 frames for idling and 4 for walking |
| Animation.FreshTimer | src/gameplay/animation.rs:102-116 | 600 ms per idle frame and 200 ms per walking frame, with a fresh timer |
| Animation.DirectionBase | src/gameplay/animation.rs:154-161 | each direction's idle sprites start at a multiple of 15 between 105 and 150 |
| Animation.WalkingBaseFollowsIdleBase | src/gameplay/animation.rs:154-169 | each walking index is the idle index of the same direction and frame plus one |
| Animation.AtlasIndexWithinDirection | src/gameplay/animation.rs:154-169 | a valid frame's index lies in its direction's five sprites, so the atlas row gives the direction |
| Animation.StateForIntent | src/gameplay/animation.rs:31-50 | zero intent idles facing the same way; a one-axis intent walks North (y < 0), South, West or East; a diagonal intent keeps the state |
| Animation.PlayerAnimation.constructor | src/gameplay/animation.rs:102-120 | `new` is `idling`: the idle state, frame 0, and a fresh 600 ms timer |
| Animation.PlayerAnimation.Walking | src/gameplay/animation.rs:110-116 | `walking`: the walking state, frame 0, and a fresh 200 ms timer |
| Animation.PlayerAnimation.Changed | src/gameplay/animation.rs:149-151 | true exactly when a timer period ended during the last tick |
| Animation.PlayerAnimation.AtlasIndex | src/gameplay/animation.rs:154-169 | the index is the state's base plus the frame, inside its direction's five sprites |
| Animation.PlayerAnimation.UpdateTimer | src/gameplay/animation.rs:123-133 | the timer ticks; the frame advances modulo the state's frame count exactly when the timer finished, so it stays inside the cycle |
| Animation.PlayerAnimation.UpdateState | src/gameplay/animation.rs:136-146 | an equal state changes nothing; a different state resets to its fresh animation and sets the sprite's index when there is an atlas |
| Animation.PlayerAnimation.UpdateMovement | src/gameplay/animation.rs:27-55 | the state moves to the one the intent asks for; a new state resets frame and timer and sets the sprite's index when there is an atlas; an unchanged state or a diagonal intent changes nothing |
| Animation.PlayerAnimation.RefreshedAtlas | src/gameplay/animation.rs:65-74 | a sprite with an atlas gets the current index exactly when a period ended; otherwise, and for a sprite without an atlas, the sprite is left alone |
| Animation.FrameCycleReturns | src/gameplay/animation.rs:128-132 | after a whole cycle of finished periods the frame is back where it started |
| Animation.Advance | src/gameplay/animation.rs:128-132 | after n finished periods the frame is `(frame + n) mod count`, still inside the cycle |
| Player.Held | src/gameplay/player.rs:54-65 | a key pair counts 1 exactly when either key is held |
| Player.NormalizeOrZero | src/gameplay/player.rs:69 | zero stays zero, signs are kept, axis-aligned intents are unchanged, and the rest have length 1 up to `f32` precision |
| Player.CollectIntent | src/gameplay/player.rs:53-69 | the `+=`/`-=` accumulation gives the normalised raw intent, whose components are -1, 0 or 1 |
| Player.RawIntentComponents | src/gameplay/player.rs:53-65 | each raw component is -1, 0 or 1 |
| Player.OpposingKeysCancel | src/gameplay/player.rs:54-65 | opposite keys held together cancel on their axis, and x is 0 exactly when right and left are held alike |
| Player.NoKeysNoIntent | src/gameplay/player.rs:53-69 | no keys give a zero intent, and the intent is zero exactly when both axes cancel |
| Player.RecordPlayerDirectionalInput | src/gameplay/player.rs:48-75 | every player controller gets the same normalised intent, and nothing else changes |
| Player.PlayerAtlasIndex | src/gameplay/player.rs:42-46 | the player sprite is atlas index 105 |
| Player.AddPlayer | src/gameplay/player.rs:22-36 | the player spawns at the centre of cell (5, 1) on layer 2 with the default controller: no girth, no intent, speed 3 |
| Player.UpKeyWalksSouth | src/gameplay/player.rs:53-69 | W alone gives the intent (0, 1), which the animation maps to walking South |
| Player.SpawnedPlayerNeverMoves | src/gameplay/player.rs:34 | a spawned player listed first halts the movement system, which panics once the player has an intent, and no entity moves |
| TileMesh.QuadPositions | src/utils/tile_mesh.rs:41-46 | four corners per tile |
| TileMesh.QuadUvs | src/utils/tile_mesh.rs:49 | four texture coordinates per tile |
| TileMesh.QuadIndices | src/utils/tile_mesh.rs:50 | six indices (two triangles) per tile |
| TileMesh.MeshPositions | src/utils/tile_mesh.rs:41-46 | four positions per tile |
| TileMesh.MeshUvs | src/utils/tile_mesh.rs:49 | four texture coordinates per tile |
| TileMesh.MeshIndices | src/utils/tile_mesh.rs:50-51 | six indices per tile, each naming one of the 4n vertices |
| TileMesh.BuildTileMesh | src/utils/tile_mesh.rs:11-59 | it panics on a zero column count exactly when there are tiles, and on counter overflow exactly past 16383 tiles; otherwise the buffers are the per-tile quads in order |
| TileMesh.PrefixStep | src/utils/tile_mesh.rs:26 | one more tile of the iterator extends the prefix by it |
| TileMesh.TileIndices | src/utils/tile_mesh.rs:50-51 | tile k's indices are 4k, 4k+1, 4k+2, 4k, 4k+2, 4k+3 |
| TileMesh.TilePositions | src/utils/tile_mesh.rs:41-46 | tile k's four positions are its quad at its own translation |
| TileMesh.TileUvs | src/utils/tile_mesh.rs:29-49 | tile k's four texture coordinates are the corners of its own sprite cell in the atlas |
| TileMesh.IndicesFitU16 | src/utils/tile_mesh.rs:23-51 | up to 16383 tiles every index fits in a `u16` and names an existing vertex |
| TileMesh.QuadTrianglesWindAlike | src/utils/tile_mesh.rs:41-50 | both triangles of a quad wind the same way and each covers half of the tile |
| TileMesh.QuadTextureUpright | src/utils/tile_mesh.rs:30-49 | each corner's texture coordinate is the sprite cell's origin plus the corner's offset in the quad, with v reversed, so the sprite is drawn upright |
| TileMesh.SpriteCellInsideTexture | src/utils/tile_mesh.rs:30-33 | a sprite's cell lies inside the texture exactly when its index is below `cols * rows` |
| TileMesh.CounterOverflowsAtTile16384 | src/utils/tile_mesh.rs:25-51 | the vertex counter overflows at the 16384th tile |
| WorldMapGen.GroundCode | asset_pipeline/world_map_gen.py:9-13 | the ground table knows exactly the codes 1, 3, 4 |
| WorldMapGen.ObstructionCode | asset_pipeline/world_map_gen.py:15-23 | the obstruction table knows exactly the codes -1, 3, 4, 5, 6, 7, 15 |
| WorldMapGen.UnknownCodesDefault | asset_pipeline/world_map_gen.py:41-42 | unknown codes give Grass and no obstruction |
| WorldMapGen.ObstructingCodes | asset_pipeline/world_map_gen.py:15-42 | a generated tile obstructs exactly for the obstruction codes 3, 4, 5, 6, 7, 15 |
| WorldMapGen.KnownCodes | asset_pipeline/world_map_gen.py:9-23 | codes map as in the tables, e.g. 15 to Tower, 7 to WallV and -1 to None |
| WorldMapGen.TileTextInjective | asset_pipeline/world_map_gen.py:43 | different tiles are written as different Rust literals |
| WorldMapGen.MakeTileMatrix | asset_pipeline/world_map_gen.py:35-45 | it raises `IndexError` exactly when a ground cell has no obstruction cell; otherwise the matrix has the ground's shape with the tile literal of each cell |
| WorldMapGen.RowLines | asset_pipeline/world_map_gen.py:49-51 | one line per row |
| WorldMapGen.FormatRustMatrix | asset_pipeline/world_map_gen.py:48-52 | the loop builds `"[\n"`, the rows joined by `",\n"`, then `"\n];"` |
| WorldMapGen.Count | asset_pipeline/world_map_gen.py:48-52 | a character count is at most the length |
| WorldMapGen.CountAppend | asset_pipeline/world_map_gen.py:48-52 | counts add over concatenation |
| WorldMapGen.CountJoin | asset_pipeline/world_map_gen.py:51-52 | joining k parts with a one-newline separator gives k - 1 newlines |
| WorldMapGen.CountJoinNone | asset_pipeline/world_map_gen.py:51 | joining without newlines gives none |
| WorldMapGen.FormattedLineCount | asset_pipeline/world_map_gen.py:48-52 | the matrix text has one line per row plus the two bracket lines |
| WorldMapGen.TileMatrix | asset_pipeline/world_map_gen.py:35-45 | the tile matrix of two covering code matrices |
| WorldMapGen.TileMatrixUnique | asset_pipeline/world_map_gen.py:35-45 | any matrix meeting the tile-matrix description is that one |
| WorldMapGen.SameShapeCovers | asset_pipeline/world_map_gen.py:59-64 | after the size check, the tile matrix cannot raise `IndexError` |
| WorldMapGen.HeaderDimsAsWritten | asset_pipeline/world_map_gen.py:70-74 | the header as written puts the row count inner and the column count outer |
| WorldMapGen.HeaderDims | asset_pipeline/world_map_gen.py:70-74 | the corrected header puts the row count outer and the column count inner |
| WorldMapGen.HeaderAsWrittenMismatch | asset_pipeline/world_map_gen.py:70-74 | for two rows of three, the written type does not describe the matrix |
| WorldMapGen.SquareHeadersAgree | asset_pipeline/world_map_gen.py:70-74 | on square maps, such as the 11 by 11 one here, the two orders agree |
| WorldMapGen.HeaderDimsDescribeMatrix | asset_pipeline/world_map_gen.py:64-75 | for equal-shaped rectangular maps, the corrected header describes the generated matrix |
| WorldMapGen.NatToString | asset_pipeline/world_map_gen.py:71-73 | `str` of a count is a non-empty string of digits |
| WorldMapGen.GenerateRustSource | asset_pipeline/world_map_gen.py:55-77 | it raises `ValueError` exactly on mismatched sizes and `IndexError` exactly on an empty map; otherwise it produces the prelude, the header `main` writes (row count inner, column count outer) and the matrix text |
| WorldMapGen.CorrectedRustSource | asset_pipeline/world_map_gen.py:55-77 | the same errors as `main`; otherwise the file with the corrected header, whose declared type describes the literal on every rectangular map |
| WorldMapGen.HeaderAsWrittenMisdescribes | asset_pipeline/world_map_gen.py:64-75 | on every rectangular map that is not square, the type `main` writes does not describe the literal under it |
| WorldMapGen.SquareMapsGenerateCorrectSource | asset_pipeline/world_map_gen.py:64-75 | on a square map the file `main` writes is the corrected file |

## Left out

- Bevy ECS wiring is not modelled: plugins, system sets, queries, resources and `Commands`. Each system is modelled on the data it reads and writes.
- The per-entity query loops of the three animation systems are not modelled. `UpdateMovement`, `UpdateTimer` and `RefreshedAtlas` model one entity's step.
- Sprites are not modelled: the sprite bundle, texture atlas handles, the finish-line sprite and its render placement, `Mesh`/`Assets`/`Handle`, and `debug!` logging.
- `f32` rounding is not modelled. All arithmetic is exact over the reals, so the model does not capture float noise, and `round_out_float_noise` is left out.
- Player.NormalizeOrZero: uses the `f32` value 0.70710677 for a diagonal component instead of computing a square root, and is stated only for raw keyboard intents (components -1, 0 or 1).
- Animation.Timer.Tick: models only a repeating timer with a positive duration in whole milliseconds. Its contract gives the new elapsed time only for ticks that cross at most one period boundary, and finishing is a single flag, not a count of the periods that ended.
- `Time::delta` is a parameter (a non-negative real for movement, a natural number of milliseconds for the animation timer).
- Keyboard input is a set of held keys.
- Movement.ApplyMovement: the controllers are a sequence whose order stands for Bevy's query iteration order, which Bevy does not specify. Which entities move before a zero intent ends the system depends on that order.
- Reading the CSV files, writing the Rust file, the hard-coded paths and the final `print` of the generator are I/O and are left out. `GenerateRustSource` returns the text `main` writes, header included.
- TileMesh.BuildTileMesh: requires at least one atlas row, because a zero row count gives an `f32` division by zero (infinity), which reals cannot express. Release builds, where the `u16` counter wraps instead of panicking, are not modelled.
- Hitboxes.Hitbox.Translate: `translate` updates a hitbox in place. `Hitbox` is a `Copy` value, so the model returns the moved box, and the movement methods reassign their local `hitbox`.
- WorldMapGen.KnownCodes: states seven sample codes, not every entry of both tables as text. The Rust literal of each tile is covered by TileTextInjective and the code tables by GroundCode and ObstructionCode.
- TileMesh.QuadTrianglesWindAlike: states the doubled signed area of each triangle as `tileSize * tileSize`, not that it is positive.
- Window and camera setup, theming, the stale `src/environment/mod.rs`, the z-layer constants and the tileset copy script are not modelled; they hold no game logic.

## Findings

| source | as written | input that shows it | evidently intended | confidence | as-written member | corrected member |
|---|---|---|---|---|---|---|
| asset_pipeline/world_map_gen.py:70-74 | the header type is `[[Tile; len(ground)]; len(ground[0])]`, with the row count as the inner length and the column count as the outer one | a ground map of 2 rows by 3 columns gives `[[Tile; 2]; 3]` over a literal of 2 rows of 3 tiles, which does not compile | `[[Tile; len(ground[0])]; len(ground)]`, matching the row-major literal | not executed | WorldMapGen.HeaderDimsAsWritten | WorldMapGen.HeaderDims |
