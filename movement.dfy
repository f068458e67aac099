/**
 * Collision-aware movement (src/gameplay/movement.rs).
 *
 * Each tick every moving entity is moved by `max_speed * intent * delta`,
 * one axis at a time, x first. For each axis the resolver probes the two
 * cells just past the leading corners of the entity's footprint (its girth,
 * centred on its position). If a probed cell obstructs and the footprint,
 * moved by the full step, meets that cell's square, the entity is put flush
 * against the near face of the first probed cell; otherwise it takes the
 * full step. If a probed cell is off the map the entity does not move on
 * that axis. All collision arithmetic is in world array space; entity
 * translations are in render space.
 */
module Movement {
  import opened Wrappers
  import opened Vectors
  import opened Coordinates
  import opened Hitboxes
  import opened Spaces
  import opened Environment

  /** `HALF_TILE_DIM` (its definition is not part of this model): half of a unit tile. */
  const HalfTileDim: real := 0.5

  /** Movement parameters of one entity. */
  datatype MovementController = MovementController(intent: Vec2, maxSpeed: real, girth: Option<Vec2>)

  /** `MovementController::default`: no intent, three tiles per second, no girth. */
  const DefaultController: MovementController := MovementController(Zero, 3.0, Option.None)

  /** The displacement asked for this tick: `max_speed * intent * delta`. */
  function TickTranslation(c: MovementController, delta: real): Vec2 {
    c.intent.Scale(c.maxSpeed).Scale(delta)
  }

  /** The entity's box: `half` on each side of `position`, corners ordered. */
  function Footprint(position: Vec2, half: Vec2): Hitbox {
    var extent := Vec2(Abs(half.x), Abs(half.y));
    Hitbox(Rect(position.Sub(extent), position.Add(extent)))
  }

  function Abs(r: real): real { if r < 0.0 then -r else r }

  /** The footprint is the box `from_corners` builds from the two corners. */
  lemma FootprintIsFromCorners(position: Vec2, half: Vec2)
    ensures Footprint(position, half) == Hitbox.FromCorners(position.Sub(half), position.Add(half))
  {
  }

  // The probed cells, one pair per direction of travel; the first of each
  // pair is at the smaller cross-axis coordinate.

  function EastProbes(p: Vec2, h: Vec2): (Coordinate, Coordinate) {
    (Coordinate.FromVec2Floor(Vec2(p.x + h.x + HalfTileDim, p.y - h.y)),
     Coordinate.FromVec2Floor(Vec2(p.x + h.x + HalfTileDim, p.y + h.y)))
  }

  function WestProbes(p: Vec2, h: Vec2): (Coordinate, Coordinate) {
    (Coordinate.FromVec2Floor(Vec2(p.x - h.x - HalfTileDim, p.y - h.y)),
     Coordinate.FromVec2Floor(Vec2(p.x - h.x - HalfTileDim, p.y + h.y)))
  }

  function SouthProbes(p: Vec2, h: Vec2): (Coordinate, Coordinate) {
    (Coordinate.FromVec2Floor(Vec2(p.x - h.x, p.y + h.y + HalfTileDim)),
     Coordinate.FromVec2Floor(Vec2(p.x + h.x, p.y + h.y + HalfTileDim)))
  }

  function NorthProbes(p: Vec2, h: Vec2): (Coordinate, Coordinate) {
    (Coordinate.FromVec2Floor(Vec2(p.x - h.x, p.y - h.y - HalfTileDim)),
     Coordinate.FromVec2Floor(Vec2(p.x + h.x, p.y - h.y - HalfTileDim)))
  }

  /** Both probed cells are on the map. */
  predicate OnMap(m: WorldMap, probes: (Coordinate, Coordinate))
    requires m.Valid()
  {
    m.At(probes.0).Some? && m.At(probes.1).Some?
  }

  /** The probed cell holds an obstructing tile. */
  predicate Obstructs(m: WorldMap, c: Coordinate)
    requires m.Valid()
  {
    m.At(c).Some? && m.At(c).value.IsObstruction()
  }

  /** The probed cell obstructs and its square meets the moved footprint. */
  predicate BlocksMove(m: WorldMap, c: Coordinate, moved: Hitbox)
    requires m.Valid()
  {
    Obstructs(m, c) && moved.Intersects(m.At(c).value.Hitbox(c))
  }

  /**
   * The outcome on one axis: `current` when a probe is off the map, the
   * flush position `snap` when an obstructing probe meets the moved
   * footprint, and `current + step` otherwise.
   */
  function AxisOutcome(m: WorldMap, probes: (Coordinate, Coordinate), moved: Hitbox,
                       current: real, step: real, snap: real): real
    requires m.Valid()
  {
    if !OnMap(m, probes) then current
    else if !(Obstructs(m, probes.0) || Obstructs(m, probes.1)) then current + step
    else if BlocksMove(m, probes.0, moved) || BlocksMove(m, probes.1, moved) then snap
    else current + step
  }

  /** The array-space x after the x phase, for an entity at `p` with half girth `h` asked to move `tx`. */
  function ResolveX(m: WorldMap, p: Vec2, h: Vec2, tx: real): real
    requires m.Valid()
  {
    var moved := Footprint(p, h).Translate(Vec2(tx, 0.0));
    if tx > 0.0 then
      var probes := EastProbes(p, h);
      AxisOutcome(m, probes, moved, p.x, tx, (probes.0.x as real) - h.x)
    else if tx < 0.0 then
      var probes := WestProbes(p, h);
      AxisOutcome(m, probes, moved, p.x, tx, (probes.0.x as real + 1.0) + h.x)
    else p.x
  }

  /** The array-space y after the y phase, for an entity at `p` (already moved on x) asked to move `ty`. */
  function ResolveY(m: WorldMap, p: Vec2, h: Vec2, ty: real): real
    requires m.Valid()
  {
    var moved := Footprint(p, h).Translate(Vec2(0.0, ty));
    if ty > 0.0 then
      var probes := SouthProbes(p, h);
      AxisOutcome(m, probes, moved, p.y, ty, (probes.0.y as real) - h.y)
    else if ty < 0.0 then
      var probes := NorthProbes(p, h);
      AxisOutcome(m, probes, moved, p.y, ty, (probes.0.y as real + 1.0) + h.y)
    else p.y
  }

  /** Both phases: x from the original footprint, then y from the footprint rebuilt at the new x. */
  function Step(m: WorldMap, p: Vec2, h: Vec2, t: Vec2): Vec2
    requires m.Valid()
  {
    var x := ResolveX(m, p, h, t.x);
    Vec2(x, ResolveY(m, Vec2(x, p.y), h, t.y))
  }

  /** The render-space translation after moving by `t` (array space) with half girth `h`; z is kept. */
  function MovedTranslation(m: WorldMap, translation: Vec3, t: Vec2, h: Vec2): Vec3
    requires m.Valid()
  {
    var p := WorldArrayPositionFromRenderPosition(translation.x, translation.y);
    var s := Step(m, p, h, t);
    var r := RenderPositionFromWorldArrayPosition(s.x, s.y);
    Vec3(r.x, r.y, translation.z)
  }

  /** Where one tick moves an entity with controller `c` (which has a girth) from render translation `translation`. */
  function Moved(m: WorldMap, c: MovementController, translation: Vec3, delta: real): Vec3
    requires m.Valid() && c.girth.Some?
  {
    MovedTranslation(m, translation, TickTranslation(c, delta), c.girth.value.Half())
  }

  /** An entity at which the movement system stops: no intent (`return`) or no girth (`todo!`). */
  predicate Halts(c: MovementController) {
    c.intent == Zero || c.girth.None?
  }

  /** Index of the first entity at which the system stops, or the number of entities. */
  function HaltIndex(cs: seq<MovementController>): (k: nat)
    ensures k <= |cs|
    ensures forall i :: 0 <= i < k ==> !Halts(cs[i])
    ensures k < |cs| ==> Halts(cs[k])
  {
    if |cs| == 0 then 0
    else if Halts(cs[0]) then 0
    else 1 + HaltIndex(cs[1..])
  }

  /**
   * The x phase of the movement system for one entity: `translation` is its
   * render-space translation, `t` the array-space step and `half` half its
   * girth.
   */
  method MoveAlongX(m: WorldMap, translation: Vec3, t: Vec2, half: Vec2) returns (r: Vec3)
    requires m.Valid()
    ensures r == translation.(x := RenderXFromWorldArrayX(
                  ResolveX(m, WorldArrayPositionFromRenderPosition(translation.x, translation.y), half, t.x)))
  {
    r := translation;
    var position := WorldArrayPositionFromRenderPosition(r.x, r.y);
    var hitbox := Hitbox.FromCorners(position.Sub(half), position.Add(half));
    FootprintIsFromCorners(position, half);
    if t.x > 0.0 {
      r := MoveEast(m, r, position, hitbox, t, half);
    } else if t.x < 0.0 {
      r := MoveWest(m, r, position, hitbox, t, half);
    }
  }

  /** The y phase, from the footprint rebuilt at the entity's current translation. */
  method MoveAlongY(m: WorldMap, translation: Vec3, t: Vec2, half: Vec2) returns (r: Vec3)
    requires m.Valid()
    ensures r == translation.(y := RenderYFromWorldArrayY(
                  ResolveY(m, WorldArrayPositionFromRenderPosition(translation.x, translation.y), half, t.y)))
  {
    r := translation;
    var position := WorldArrayPositionFromRenderPosition(r.x, r.y);
    var hitbox := Hitbox.FromCorners(position.Sub(half), position.Add(half));
    FootprintIsFromCorners(position, half);
    if t.y > 0.0 {
      r := MoveSouth(m, r, position, hitbox, t, half);
    } else if t.y < 0.0 {
      r := MoveNorth(m, r, position, hitbox, t, half);
    }
  }

  /** Moving right along x: probes past the right edge, snaps against a cell's left face. */
  method MoveEast(m: WorldMap, translation: Vec3, position: Vec2, footprint: Hitbox, t: Vec2, half: Vec2) returns (r: Vec3)
    requires m.Valid() && t.x > 0.0
    requires position == WorldArrayPositionFromRenderPosition(translation.x, translation.y)
    requires footprint == Footprint(position, half)
    ensures r == translation.(x := RenderXFromWorldArrayX(ResolveX(m, position, half, t.x)))
  {
    ghost var probes := EastProbes(position, half);
    assert ResolveX(m, position, half, t.x)
        == AxisOutcome(m, probes, footprint.Translate(Vec2(t.x, 0.0)), position.x, t.x, (probes.0.x as real) - half.x);
    r := translation;
    var hitbox := footprint.Translate(Vec2(t.x, 0.0));
    var coordinate := Coordinate.FromVec2Floor(Vec2(position.x + half.x + HalfTileDim, position.y - half.y));
    var coordinate2 := Coordinate.FromVec2Floor(Vec2(position.x + half.x + HalfTileDim, position.y + half.y));
    var tile, tile2 := m.At(coordinate), m.At(coordinate2);
    if tile.Some? && tile2.Some? {
      var tileObstruction, tile2Obstruction := tile.value.IsObstruction(), tile2.value.IsObstruction();
      if !(tileObstruction || tile2Obstruction) {
        r := r.(x := r.x + t.x);
      } else {
        var tileHitbox, tile2Hitbox := tile.value.Hitbox(coordinate), tile2.value.Hitbox(coordinate2);
        if (tileObstruction && hitbox.Intersects(tileHitbox)) || (tile2Obstruction && hitbox.Intersects(tile2Hitbox)) {
          r := r.(x := RenderXFromWorldArrayX(tileHitbox.X1() - half.x));
        } else {
          r := r.(x := r.x + t.x);
        }
      }
    }
  }

  /** Moving left along x: probes past the left edge, snaps against a cell's right face. */
  method MoveWest(m: WorldMap, translation: Vec3, position: Vec2, footprint: Hitbox, t: Vec2, half: Vec2) returns (r: Vec3)
    requires m.Valid() && t.x < 0.0
    requires position == WorldArrayPositionFromRenderPosition(translation.x, translation.y)
    requires footprint == Footprint(position, half)
    ensures r == translation.(x := RenderXFromWorldArrayX(ResolveX(m, position, half, t.x)))
  {
    ghost var probes := WestProbes(position, half);
    assert ResolveX(m, position, half, t.x)
        == AxisOutcome(m, probes, footprint.Translate(Vec2(t.x, 0.0)), position.x, t.x, (probes.0.x as real + 1.0) + half.x);
    r := translation;
    var hitbox := footprint.Translate(Vec2(t.x, 0.0));
    var coordinate := Coordinate.FromVec2Floor(Vec2(position.x - half.x - HalfTileDim, position.y - half.y));
    var coordinate2 := Coordinate.FromVec2Floor(Vec2(position.x - half.x - HalfTileDim, position.y + half.y));
    var tile, tile2 := m.At(coordinate), m.At(coordinate2);
    if tile.Some? && tile2.Some? {
      var tileObstruction, tile2Obstruction := tile.value.IsObstruction(), tile2.value.IsObstruction();
      if !(tileObstruction || tile2Obstruction) {
        r := r.(x := r.x + t.x);
      } else {
        var tileHitbox, tile2Hitbox := tile.value.Hitbox(coordinate), tile2.value.Hitbox(coordinate2);
        if (tileObstruction && hitbox.Intersects(tileHitbox)) || (tile2Obstruction && hitbox.Intersects(tile2Hitbox)) {
          r := r.(x := RenderXFromWorldArrayX(tileHitbox.X2() + half.x));
        } else {
          r := r.(x := r.x + t.x);
        }
      }
    }
  }

  /** Moving down the array: probes past the bottom edge, snaps against a cell's top face. */
  method MoveSouth(m: WorldMap, translation: Vec3, position: Vec2, footprint: Hitbox, t: Vec2, half: Vec2) returns (r: Vec3)
    requires m.Valid() && t.y > 0.0
    requires position == WorldArrayPositionFromRenderPosition(translation.x, translation.y)
    requires footprint == Footprint(position, half)
    ensures r == translation.(y := RenderYFromWorldArrayY(ResolveY(m, position, half, t.y)))
  {
    ghost var probes := SouthProbes(position, half);
    assert ResolveY(m, position, half, t.y)
        == AxisOutcome(m, probes, footprint.Translate(Vec2(0.0, t.y)), position.y, t.y, (probes.0.y as real) - half.y);
    r := translation;
    var hitbox := footprint.Translate(Vec2(0.0, t.y));
    var coordinate := Coordinate.FromVec2Floor(Vec2(position.x - half.x, position.y + half.y + HalfTileDim));
    var coordinate2 := Coordinate.FromVec2Floor(Vec2(position.x + half.x, position.y + half.y + HalfTileDim));
    var tile, tile2 := m.At(coordinate), m.At(coordinate2);
    if tile.Some? && tile2.Some? {
      var tileObstruction, tile2Obstruction := tile.value.IsObstruction(), tile2.value.IsObstruction();
      if !(tileObstruction || tile2Obstruction) {
        r := r.(y := r.y + FlippedYAxis(t.y));
      } else {
        var tileHitbox, tile2Hitbox := tile.value.Hitbox(coordinate), tile2.value.Hitbox(coordinate2);
        if (tileObstruction && hitbox.Intersects(tileHitbox)) || (tile2Obstruction && hitbox.Intersects(tile2Hitbox)) {
          r := r.(y := RenderYFromWorldArrayY(tileHitbox.Y1() - half.y));
        } else {
          r := r.(y := r.y + FlippedYAxis(t.y));
        }
      }
    }
  }

  /** Moving up the array: probes past the top edge, snaps against a cell's bottom face. */
  method MoveNorth(m: WorldMap, translation: Vec3, position: Vec2, footprint: Hitbox, t: Vec2, half: Vec2) returns (r: Vec3)
    requires m.Valid() && t.y < 0.0
    requires position == WorldArrayPositionFromRenderPosition(translation.x, translation.y)
    requires footprint == Footprint(position, half)
    ensures r == translation.(y := RenderYFromWorldArrayY(ResolveY(m, position, half, t.y)))
  {
    ghost var probes := NorthProbes(position, half);
    assert ResolveY(m, position, half, t.y)
        == AxisOutcome(m, probes, footprint.Translate(Vec2(0.0, t.y)), position.y, t.y, (probes.0.y as real + 1.0) + half.y);
    r := translation;
    var hitbox := footprint.Translate(Vec2(0.0, t.y));
    var coordinate := Coordinate.FromVec2Floor(Vec2(position.x - half.x, position.y - half.y - HalfTileDim));
    var coordinate2 := Coordinate.FromVec2Floor(Vec2(position.x + half.x, position.y - half.y - HalfTileDim));
    var tile, tile2 := m.At(coordinate), m.At(coordinate2);
    if tile.Some? && tile2.Some? {
      var tileObstruction, tile2Obstruction := tile.value.IsObstruction(), tile2.value.IsObstruction();
      if !(tileObstruction || tile2Obstruction) {
        r := r.(y := r.y + FlippedYAxis(t.y));
      } else {
        var tileHitbox, tile2Hitbox := tile.value.Hitbox(coordinate), tile2.value.Hitbox(coordinate2);
        if (tileObstruction && hitbox.Intersects(tileHitbox)) || (tile2Obstruction && hitbox.Intersects(tile2Hitbox)) {
          r := r.(y := RenderYFromWorldArrayY(tileHitbox.Y2() + half.y));
        } else {
          r := r.(y := r.y + FlippedYAxis(t.y));
        }
      }
    }
  }

  /** Both phases for one entity that has a girth and a non-zero intent. */
  method MoveEntity(m: WorldMap, translation: Vec3, t: Vec2, half: Vec2) returns (r: Vec3)
    requires m.Valid()
    ensures r == MovedTranslation(m, translation, t, half)
  {
    ghost var p := WorldArrayPositionFromRenderPosition(translation.x, translation.y);
    ghost var x := ResolveX(m, p, half, t.x);
    r := MoveAlongX(m, translation, t, half);
    assert WorldArrayPositionFromRenderPosition(r.x, r.y) == Vec2(x, p.y);
    r := MoveAlongY(m, r, t, half);
  }

  /**
   * The per-entity movement as a function value; it is only ever applied to
   * entities that have a girth.
   */
  function MoveFn(m: WorldMap, delta: real): (MovementController, Vec3) -> Vec3
    requires m.Valid()
  {
    (c: MovementController, t: Vec3) => if c.girth.Some? then Moved(m, c, t, delta) else t
  }

  /**
   * The translations after one run of the movement system: entities are
   * moved in order until the first one at which the system stops; that one
   * and all later ones keep their translation.
   */
  function MovedAll(cs: seq<MovementController>, ts: seq<Vec3>, move: (MovementController, Vec3) -> Vec3): (r: seq<Vec3>)
    requires |cs| == |ts|
    ensures |r| == |ts|
  {
    if |cs| == 0 || Halts(cs[0]) then ts
    else [move(cs[0], ts[0])] + MovedAll(cs[1..], ts[1..], move)
  }

  /** Entity by entity: those before the halting index are moved, the rest are untouched. */
  lemma {:induction false} MovedAllPointwise(cs: seq<MovementController>, ts: seq<Vec3>, move: (MovementController, Vec3) -> Vec3)
    requires |cs| == |ts|
    ensures var r, k := MovedAll(cs, ts, move), HaltIndex(cs);
            && (forall i :: 0 <= i < k ==> r[i] == move(cs[i], ts[i]))
            && (forall i :: k <= i < |ts| ==> r[i] == ts[i])
  {
    if |cs| == 0 || Halts(cs[0]) {
    } else {
      MovedAllPointwise(cs[1..], ts[1..], move);
      var r := MovedAll(cs, ts, move);
      assert HaltIndex(cs) == 1 + HaltIndex(cs[1..]);
      forall i | 1 <= i < |ts|
        ensures r[i] == MovedAll(cs[1..], ts[1..], move)[i - 1]
      {
      }
    }
  }

  /** Running the system over a prefix with no halting entity and then over the rest is running it over all. */
  lemma {:induction false} MovedAllSplit(cs: seq<MovementController>, ts: seq<Vec3>, move: (MovementController, Vec3) -> Vec3, i: nat)
    requires |cs| == |ts| && i <= |cs|
    requires forall j :: 0 <= j < i ==> !Halts(cs[j])
    ensures MovedAll(cs, ts, move) == MovedAll(cs[..i], ts[..i], move) + MovedAll(cs[i..], ts[i..], move)
  {
    if i == 0 {
      assert cs[..0] == [] && cs[0..] == cs && ts[0..] == ts;
    } else {
      MovedAllSplit(cs[1..], ts[1..], move, i - 1);
      assert cs[1..][..i - 1] == cs[..i][1..] && ts[1..][..i - 1] == ts[..i][1..];
      assert cs[1..][i - 1..] == cs[i..] && ts[1..][i - 1..] == ts[i..];
    }
  }

  /** One more moving entity extends the moved prefix by its own move. */
  lemma MovedAllExtend(cs: seq<MovementController>, ts: seq<Vec3>, move: (MovementController, Vec3) -> Vec3, i: nat)
    requires |cs| == |ts| && i < |cs|
    requires forall j :: 0 <= j <= i ==> !Halts(cs[j])
    ensures MovedAll(cs[..i + 1], ts[..i + 1], move) == MovedAll(cs[..i], ts[..i], move) + [move(cs[i], ts[i])]
  {
    MovedAllSplit(cs[..i + 1], ts[..i + 1], move, i);
    assert cs[..i + 1][..i] == cs[..i] && ts[..i + 1][..i] == ts[..i];
    assert cs[..i + 1][i..] == [cs[i]] && ts[..i + 1][i..] == [ts[i]];
  }

  /** At the first halting entity the run is over: the rest keep their translations. */
  lemma MovedAllStop(cs: seq<MovementController>, ts: seq<Vec3>, move: (MovementController, Vec3) -> Vec3, i: nat)
    requires |cs| == |ts| && i < |cs|
    requires forall j :: 0 <= j < i ==> !Halts(cs[j])
    requires Halts(cs[i])
    ensures MovedAll(cs, ts, move) == MovedAll(cs[..i], ts[..i], move) + ts[i..]
    ensures HaltIndex(cs) == i
  {
    MovedAllSplit(cs, ts, move, i);
  }

  /**
   * One pass of the system's loop for entity `i`, which has a girth and an
   * intent: its velocity and step, both phases, and the write-back.
   */
  method MoveNext(m: WorldMap, delta: real, controllers: seq<MovementController>, translations: array<Vec3>,
                  i: nat, ghost initial: seq<Vec3>)
    requires m.Valid() && |controllers| == translations.Length == |initial| && i < |controllers|
    requires forall j :: 0 <= j <= i ==> !Halts(controllers[j])
    requires translations[..] == MovedAll(controllers[..i], initial[..i], MoveFn(m, delta)) + initial[i..]
    modifies translations
    ensures translations[..] == MovedAll(controllers[..i + 1], initial[..i + 1], MoveFn(m, delta)) + initial[i + 1..]
  {
    ghost var done := MovedAll(controllers[..i], initial[..i], MoveFn(m, delta));
    assert translations[i] == (done + initial[i..])[i] == initial[i];
    ghost var before := translations[..];
    var moved := MoveController(m, controllers[i], translations[i], delta);
    translations[i] := moved;
    MovedAllExtend(controllers, initial, MoveFn(m, delta), i);
    SpliceUpdate(done, initial[i..], moved);
    assert initial[i..][1..] == initial[i + 1..];
    assert translations[..] == before[i := moved];
  }

  /** Overwriting the first element after a prefix. */
  lemma SpliceUpdate<T>(prefix: seq<T>, rest: seq<T>, v: T)
    requires |rest| > 0
    ensures (prefix + rest)[|prefix| := v] == prefix + [v] + rest[1..]
  {
  }

  /** The velocity and step of one entity with a girth, then both phases. */
  method MoveController(m: WorldMap, c: MovementController, translation: Vec3, delta: real) returns (r: Vec3)
    requires m.Valid() && c.girth.Some?
    ensures r == MoveFn(m, delta)(c, translation)
  {
    var velocity := c.intent.Scale(c.maxSpeed);
    var step := velocity.Scale(delta);
    r := MoveEntity(m, translation, step, c.girth.value.Half());
  }

  /**
   * `apply_movement`: moves the entities in order. The first entity with no
   * intent ends the whole system for this tick, so it and every later entity
   * stay put; an entity with intent but no girth is a fatal `todo!`
   * (`panicked`), after the earlier entities have moved.
   */
  method ApplyMovement(delta: real, controllers: seq<MovementController>, translations: array<Vec3>, m: WorldMap)
    returns (panicked: bool)
    requires m.Valid() && |controllers| == translations.Length
    modifies translations
    ensures translations[..] == MovedAll(controllers, old(translations[..]), MoveFn(m, delta))
    ensures var k := HaltIndex(controllers);
            panicked == (k < |controllers| && controllers[k].intent != Zero)
  {
    ghost var initial := translations[..];
    panicked := false;
    var i := 0;
    while i < translations.Length
      invariant 0 <= i <= translations.Length
      invariant forall j :: 0 <= j < i ==> !Halts(controllers[j])
      invariant translations[..] == MovedAll(controllers[..i], initial[..i], MoveFn(m, delta)) + initial[i..]
    {
      var controller := controllers[i];
      if controller.intent == Zero {
        MovedAllStop(controllers, initial, MoveFn(m, delta), i);
        return;
      }
      match controller.girth {
        case None =>
          // todo!("Non-Hitbox movement is not implemented.")
          panicked := true;
          MovedAllStop(controllers, initial, MoveFn(m, delta), i);
          return;
        case Some(_) =>
          MoveNext(m, delta, controllers, translations, i, initial);
      }
      i := i + 1;
    }
    assert controllers[..i] == controllers && initial[..i] == initial;
  }
}
