/**
 * The maze progress state machine and the finish-line test
 * (src/gameplay/maze.rs).
 *
 * Bevy keeps the current state of `MazeProgress` in one resource and the
 * requested next state in another; `NextState::set` only records the request
 * and the schedule applies it before the next frame. ProgressMachine holds
 * both and ApplyTransition stands for that schedule step.
 */
module Maze {
  import W = Wrappers
  import opened Vectors
  import opened Coordinates
  import opened Hitboxes
  import opened Spaces
  import opened Movement

  datatype MazeProgress = None | Start | Seeking | Finish

  /** `#[default]` on the first variant. */
  const DefaultProgress: MazeProgress := None

  /** Component carried by the single finish-line entity. */
  datatype FinishLine = FinishLine(hitbox: Hitbox)

  /** What the finish-line test reads of a player: its controller and transform translation. */
  datatype PlayerView = PlayerView(controller: MovementController, translation: Vec3)

  /**
   * `spawn_finish_line`: the box from the top-left corner of cell (10, 1) to
   * the bottom-right corner of cell (10, 2), in world array space.
   */
  function FinishLineHitbox(): (h: Hitbox)
    ensures h.X1() == 10.0 && h.Y1() == 1.0 && h.X2() == 11.0 && h.Y2() == 3.0
    ensures h.Width() == 1.0 && h.Height() == 2.0
  {
    var corners := (Coordinate(10, 1).ToVec2(), Coordinate(10 + 1, 2 + 1).ToVec2());
    Hitbox.FromCorners(corners.0, corners.1)
  }

  /**
   * The player's footprint in world array space, `from_rounded_corners`
   * taken to behave as `from_corners`.
   */
  function PlayerHitbox(translation: Vec3, girth: Vec2): (h: Hitbox)
    ensures h.Valid()
  {
    var position := WorldArrayPositionFromRenderPosition(translation.x, translation.y);
    var half := girth.Half();
    Hitbox.FromCorners(position.Sub(half), position.Add(half))
  }

  /** Bevy's `Query::single`: a value only when there is exactly one match. */
  function Single<T>(s: seq<T>): (r: W.Option<T>)
    ensures r.Some? <==> |s| == 1
    ensures r.Some? ==> r.value == s[0]
  {
    if |s| == 1 then W.Some(s[0]) else W.None
  }

  /**
   * The player has crossed the finish line: there is exactly one finish line
   * and exactly one player, the player has a girth, and its footprint lies
   * inside the finish-line box.
   */
  predicate Crossed(lines: seq<FinishLine>, players: seq<PlayerView>) {
    |lines| == 1 && |players| == 1 && players[0].controller.girth.Some?
    && lines[0].hitbox.ContainsHitbox(PlayerHitbox(players[0].translation, players[0].controller.girth.value))
  }

  class ProgressMachine {
    /** `State<MazeProgress>` */
    var current: MazeProgress
    /** `NextState<MazeProgress>`: the pending request, if any. */
    var next: W.Option<MazeProgress>

    /** `init_state`: the default state with nothing pending. */
    constructor ()
      ensures current == DefaultProgress && next == W.None
    {
      current := DefaultProgress;
      next := W.None;
    }

    /** `NextState::set`: records the request; the current state is untouched. */
    method Set(p: MazeProgress)
      modifies this
      ensures next == W.Some(p) && current == old(current)
    {
      next := W.Some(p);
    }

    /** `init_maze`, run on entering the gameplay screen. */
    method InitMaze()
      modifies this
      ensures next == W.Some(Start) && current == old(current)
    {
      Set(Start);
    }

    /** `start_seeking`, run on entering `Start`. */
    method StartSeeking()
      modifies this
      ensures next == W.Some(Seeking) && current == old(current)
    {
      Set(Seeking);
    }

    /**
     * The schedule's transition step: a pending request becomes the current
     * state and is consumed. `entered` is the state whose `OnEnter` systems run.
     */
    method ApplyTransition() returns (entered: W.Option<MazeProgress>)
      modifies this
      ensures entered == old(next) && next == W.None
      ensures current == (if old(next).Some? then old(next).value else old(current))
    {
      entered := next;
      if next.Some? {
        current := next.value;
      }
      next := W.None;
    }

    /**
     * `detect_finish_line_crossing`: requests `Finish` when the player's
     * footprint lies inside the finish line; otherwise leaves any pending
     * request as it was. The current state is not consulted.
     */
    method DetectFinishLineCrossing(lines: seq<FinishLine>, players: seq<PlayerView>)
      modifies this
      ensures next == AfterDetect(lines, players, old(next))
      ensures current == old(current)
    {
      var line := Single(lines);
      var player := Single(players);
      if line.Some? && player.Some? {
        var controller := player.value.controller;
        var translation := player.value.translation;
        var playerPosition := WorldArrayPositionFromRenderPosition(translation.x, translation.y);
        if controller.girth.Some? {
          var halfGirth := controller.girth.value.Half();
          var playerHitbox := Hitbox.FromCorners(playerPosition.Sub(halfGirth), playerPosition.Add(halfGirth));
          if line.value.hitbox.ContainsHitbox(playerHitbox) {
            Set(Finish);
          }
        }
      }
    }
  }

  /**
   * The pending request after a finish-line test, as a function of the
   * inputs and the request before it.
   */
  function AfterDetect(lines: seq<FinishLine>, players: seq<PlayerView>, pending: W.Option<MazeProgress>): (r: W.Option<MazeProgress>)
    ensures r != pending ==> r == W.Some(Finish)
    ensures Crossed(lines, players) ==> r == W.Some(Finish)
  {
    if Crossed(lines, players) then W.Some(Finish) else pending
  }

  /**
   * Starting from any request other than `Finish`, the test requests `Finish`
   * exactly when the player has crossed the finish line.
   */
  lemma FinishRequestedIffCrossed(lines: seq<FinishLine>, players: seq<PlayerView>, pending: W.Option<MazeProgress>)
    requires pending != W.Some(Finish)
    ensures AfterDetect(lines, players, pending) == W.Some(Finish) <==> Crossed(lines, players)
  {
  }

  /** A player whose controller has no girth never requests `Finish`, wherever it stands. */
  lemma GirthlessNeverFinishes(lines: seq<FinishLine>, players: seq<PlayerView>, pending: W.Option<MazeProgress>)
    requires |players| == 1 && !players[0].controller.girth.Some?
    ensures AfterDetect(lines, players, pending) == pending
  {
  }

  /** Running the test twice in one frame leaves the same request as running it once. */
  lemma DetectIdempotent(lines: seq<FinishLine>, players: seq<PlayerView>, pending: W.Option<MazeProgress>)
    ensures AfterDetect(lines, players, AfterDetect(lines, players, pending)) == AfterDetect(lines, players, pending)
  {
  }

  /**
   * With two finish lines or two players nothing is requested, even when
   * each player stands inside a finish line.
   */
  lemma AmbiguousQueriesNeverFinish(lines: seq<FinishLine>, players: seq<PlayerView>, pending: W.Option<MazeProgress>)
    requires |lines| != 1 || |players| != 1
    ensures AfterDetect(lines, players, pending) == pending
  {
  }

  /**
   * A player exactly filling the finish cells, girth (1, 2) centred on the
   * middle of the finish line, requests `Finish`; the box test is inclusive.
   */
  lemma FillingTheFinishLineFinishes(c: MovementController)
    requires c.girth == W.Some(Vec2(1.0, 2.0))
    ensures Crossed([FinishLine(FinishLineHitbox())], [PlayerView(c, Vec3(5.0, 3.5, 2.0))])
  {
    var h := PlayerHitbox(Vec3(5.0, 3.5, 2.0), Vec2(1.0, 2.0));
    assert WorldArrayPositionFromRenderPosition(5.0, 3.5) == Vec2(10.5, 2.0);
    assert h.X1() == 10.0 && h.X2() == 11.0 && h.Y1() == 1.0 && h.Y2() == 3.0;
  }

  /**
   * A footprint wider than one tile can never fit inside the finish line,
   * so such a player never finishes.
   */
  lemma WidePlayerNeverFinishes(c: MovementController, t: Vec3)
    requires c.girth.Some? && (c.girth.value.x > 1.0 || c.girth.value.x < -1.0)
    ensures !Crossed([FinishLine(FinishLineHitbox())], [PlayerView(c, t)])
  {
    var h := PlayerHitbox(t, c.girth.value);
    var p := WorldArrayPositionFromRenderPosition(t.x, t.y);
    var half := c.girth.value.Half();
    assert h == Hitbox.FromCorners(p.Sub(half), p.Add(half));
    assert h.Width() > 1.0;
  }

  /**
   * The sequence of frames from the start of gameplay: `init_maze` requests
   * `Start`, the transition enters it, `start_seeking` requests `Seeking`,
   * the next transition enters that.
   */
  method EnterGameplay(m: ProgressMachine)
    modifies m
    requires m.current == DefaultProgress && m.next == W.None
    ensures m.current == Seeking && m.next == W.None
  {
    m.InitMaze();
    var entered := m.ApplyTransition();
    assert entered == W.Some(Start);
    m.StartSeeking();
    entered := m.ApplyTransition();
  }
}
