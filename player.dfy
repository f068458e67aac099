/**
 * Keyboard intent and the player's spawn parameters (src/gameplay/player.rs).
 */
module Player {
  import opened Wrappers
  import opened Vectors
  import opened Coordinates
  import opened Spaces
  import opened Movement
  import Animation

  /** The keys the player system reads; every other key is ignored. */
  datatype KeyCode = KeyW | KeyA | KeyS | KeyD | ArrowUp | ArrowDown | ArrowLeft | ArrowRight

  /** 1 when either key of a pair is held, 0 otherwise. */
  function Held(pressed: set<KeyCode>, k1: KeyCode, k2: KeyCode): (n: real)
    ensures n == 0.0 || n == 1.0
    ensures n == 1.0 <==> k1 in pressed || k2 in pressed
  {
    if k1 in pressed || k2 in pressed then 1.0 else 0.0
  }

  /**
   * The intent before normalisation, as a difference of held key pairs:
   * right minus left on x, W/up minus S/down on y. Movement adds this y to
   * the array-space translation, whose y grows downwards, so W moves the
   * player down the map and the animation calls it walking South.
   */
  function RawIntent(pressed: set<KeyCode>): Vec2 {
    Vec2(Held(pressed, KeyD, ArrowRight) - Held(pressed, KeyA, ArrowLeft),
         Held(pressed, KeyW, ArrowUp) - Held(pressed, KeyS, ArrowDown))
  }

  /** `1 / sqrt(2)` as the nearest `f32`. */
  const Diagonal: real := 0.70710677

  /** -1, 0 or 1: the components a raw intent can have. */
  predicate IsUnitStep(r: real) {
    r == -1.0 || r == 0.0 || r == 1.0
  }

  /**
   * `normalize_or_zero` on a raw intent: zero stays zero, an axis-aligned
   * intent is already of length one, and a diagonal one is scaled by
   * `1 / sqrt(2)` on each axis.
   */
  function NormalizeOrZero(v: Vec2): (r: Vec2)
    requires IsUnitStep(v.x) && IsUnitStep(v.y)
    ensures r == Zero <==> v == Zero
    ensures (r.x < 0.0 <==> v.x < 0.0) && (r.x > 0.0 <==> v.x > 0.0)
    ensures (r.y < 0.0 <==> v.y < 0.0) && (r.y > 0.0 <==> v.y > 0.0)
    ensures v.x == 0.0 || v.y == 0.0 ==> r == v
    ensures 0.9999999 < r.x * r.x + r.y * r.y < 1.0000001 || r == Zero
  {
    if v.x != 0.0 && v.y != 0.0 then v.Scale(Diagonal) else v
  }

  /**
   * The intent `record_player_directional_input` assigns: the held keys
   * accumulated with `+=` and `-=`, then normalised.
   */
  method CollectIntent(pressed: set<KeyCode>) returns (intent: Vec2)
    ensures IsUnitStep(RawIntent(pressed).x) && IsUnitStep(RawIntent(pressed).y)
    ensures intent == NormalizeOrZero(RawIntent(pressed))
  {
    intent := Zero;
    if KeyW in pressed || ArrowUp in pressed {
      intent := intent.(y := intent.y + 1.0);
    }
    if KeyS in pressed || ArrowDown in pressed {
      intent := intent.(y := intent.y - 1.0);
    }
    if KeyA in pressed || ArrowLeft in pressed {
      intent := intent.(x := intent.x - 1.0);
    }
    if KeyD in pressed || ArrowRight in pressed {
      intent := intent.(x := intent.x + 1.0);
    }
    intent := NormalizeOrZero(intent);
  }

  /** W alone gives a positive y intent, which the animation shows as walking South. */
  lemma UpKeyWalksSouth(current: Animation.AnimationState)
    ensures NormalizeOrZero(RawIntent({KeyW})) == Vec2(0.0, 1.0)
    ensures Animation.StateForIntent(NormalizeOrZero(RawIntent({KeyW})), current) == Some(Animation.Walking(Animation.South))
  {
  }

  /** Every raw component is -1, 0 or 1. */
  lemma RawIntentComponents(pressed: set<KeyCode>)
    ensures IsUnitStep(RawIntent(pressed).x) && IsUnitStep(RawIntent(pressed).y)
  {
  }

  /** Holding both keys of an opposing pair cancels that axis. */
  lemma OpposingKeysCancel(pressed: set<KeyCode>)
    ensures (KeyA in pressed && KeyD in pressed) ==> RawIntent(pressed).x == 0.0
    ensures (ArrowUp in pressed && KeyS in pressed) ==> RawIntent(pressed).y == 0.0
    ensures RawIntent(pressed).x == 0.0 <==>
      ((KeyD in pressed || ArrowRight in pressed) <==> (KeyA in pressed || ArrowLeft in pressed))
  {
  }

  /** No keys held gives a zero intent, and so does every set of keys whose pairs cancel. */
  lemma NoKeysNoIntent(pressed: set<KeyCode>)
    ensures pressed == {} ==> NormalizeOrZero(RawIntent(pressed)) == Zero
    ensures NormalizeOrZero(RawIntent(pressed)) == Zero <==>
      ((KeyD in pressed || ArrowRight in pressed) <==> (KeyA in pressed || ArrowLeft in pressed)) &&
      ((KeyW in pressed || ArrowUp in pressed) <==> (KeyS in pressed || ArrowDown in pressed))
  {
  }

  /**
   * `record_player_directional_input`: every player controller receives the
   * same normalised intent; speed and girth are left alone.
   */
  method RecordPlayerDirectionalInput(pressed: set<KeyCode>, controllers: array<MovementController>)
    modifies controllers
    ensures forall i :: 0 <= i < controllers.Length ==>
      controllers[i] == old(controllers[i]).(intent := NormalizeOrZero(RawIntent(pressed)))
  {
    var intent := CollectIntent(pressed);
    var i := 0;
    while i < controllers.Length
      invariant 0 <= i <= controllers.Length
      invariant forall j :: 0 <= j < i ==> controllers[j] == old(controllers[j]).(intent := intent)
      invariant forall j :: i <= j < controllers.Length ==> controllers[j] == old(controllers[j])
    {
      controllers[i] := controllers[i].(intent := intent);
      i := i + 1;
    }
  }

  /** The spawn parameters of `add_player`. */
  datatype PlayerSpawn = PlayerSpawn(atlasIndex: nat, translation: Vec3, controller: MovementController)

  /** The player sprite's `atlas_index`. */
  function PlayerAtlasIndex(): (i: Option<nat>)
    ensures i == Some(105)
  {
    Some(105)
  }

  /** `add_player`: the sprite, its place at the centre of tile (5, 1) on layer 2, and the default controller. */
  function AddPlayer(): (s: PlayerSpawn)
    ensures s.atlasIndex == 105
    ensures s.translation == Vec3(0.0, 4.0, 2.0)
    ensures WorldArrayPositionFromRenderPosition(s.translation.x, s.translation.y) == Vec2(5.5, 1.5)
    ensures Coordinate.FromVec2Floor(WorldArrayPositionFromRenderPosition(s.translation.x, s.translation.y)) == Coordinate(5, 1)
    ensures s.controller.girth.None? && s.controller.intent == Zero && s.controller.maxSpeed == 3.0
  {
    var atlas := if PlayerAtlasIndex().Some? then PlayerAtlasIndex().value else 0;
    var s := PlayerSpawn(atlas, CoordinateTranslation(5, 1).Extend(2.0), DefaultController);
    FloorIsUniqueCell(Vec2(5.5, 1.5), Coordinate(5, 1));
    s
  }

  /**
   * The spawned controller has no girth, so once it carries an intent the
   * movement system reaches its `todo!` at the player; with a zero intent it
   * returns. Either way it stops at the player, and a player listed first
   * leaves every translation as it was.
   */
  lemma SpawnedPlayerNeverMoves(cs: seq<MovementController>, ts: seq<Vec3>, move: (MovementController, Vec3) -> Vec3, intent: Vec2)
    requires |cs| == |ts| && 0 < |cs| && cs[0] == AddPlayer().controller.(intent := intent)
    ensures HaltIndex(cs) == 0
    ensures (cs[HaltIndex(cs)].intent != Zero) <==> intent != Zero
    ensures MovedAll(cs, ts, move) == ts
  {
  }
}
