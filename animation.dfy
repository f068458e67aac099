/**
 * The player sprite's animation state machine (src/gameplay/animation.rs).
 *
 * Bevy's repeating `Timer` is modelled by the part the animation reads: a
 * positive duration, the time elapsed in the current period and whether a
 * period ended during the last tick. Durations are whole milliseconds.
 */
module Animation {
  import opened Wrappers
  import opened Vectors

  /** `gameplay::environment::Direction` (its definition is not part of this model). */
  datatype Direction = North | South | East | West

  datatype AnimationState = Idling(direction: Direction) | Walking(direction: Direction)

  /** `Timer::new(duration, TimerMode::Repeating)` and `tick`, for durations above zero. */
  datatype Timer = Timer(duration: nat, elapsed: nat, finished: bool) {
    predicate Valid() {
      0 < duration && elapsed < duration
    }

    static function New(duration: nat): (t: Timer)
      requires 0 < duration
      ensures t.Valid() && t.duration == duration && t.elapsed == 0 && !t.finished
    {
      Timer(duration, 0, false)
    }

    /**
     * Advances by `delta`: finished when a period boundary was crossed, and
     * the elapsed time wraps into the new period.
     */
    function Tick(delta: nat): (t: Timer)
      requires Valid()
      ensures t.Valid() && t.duration == duration
      ensures t.finished <==> elapsed + delta >= duration
      ensures elapsed + delta < duration ==> t.elapsed == elapsed + delta
      ensures duration <= elapsed + delta < 2 * duration ==> t.elapsed == elapsed + delta - duration
    {
      var total := elapsed + delta;
      WrapOnce(total, duration);
      Timer(duration, total % duration, total >= duration)
    }
  }

  /** Reduction modulo `d` of a value below `2 * d` subtracts `d` at most once. */
  lemma WrapOnce(total: nat, d: nat)
    requires 0 < d
    ensures total < d ==> total % d == total
    ensures d <= total < 2 * d ==> total % d == total - d
  {
    if d <= total < 2 * d {
      assert total == d * 1 + (total - d);
    }
  }

  const IdleFrames: nat := 2
  const IdleInterval: nat := 600
  const WalkingFrames: nat := 4
  const WalkingInterval: nat := 200

  /** Frames in the cycle of a state. */
  function FrameCount(s: AnimationState): (n: nat)
    ensures n == 2 || n == 4
    ensures n == 4 <==> s.Walking?
  {
    match s
    case Idling(_) => IdleFrames
    case Walking(_) => WalkingFrames
  }

  /** The timer a fresh animation of state `s` starts with. */
  function FreshTimer(s: AnimationState): (t: Timer)
    ensures t.Valid() && t.elapsed == 0 && !t.finished
    ensures t.duration == if s.Idling? then 600 else 200
  {
    match s
    case Idling(_) => Timer.New(IdleInterval)
    case Walking(_) => Timer.New(WalkingInterval)
  }

  /** `get_atlas_index` on a state and frame. */
  function AtlasIndexOf(s: AnimationState, frame: nat): nat {
    match s
    case Idling(d) => (match d case North => 120 case South => 105 case East => 135 case West => 150) + frame
    case Walking(d) => (match d case North => 121 case South => 106 case East => 136 case West => 151) + frame
  }

  /** The first atlas index of a direction's sprites. */
  function DirectionBase(d: Direction): (b: nat)
    ensures b % 15 == 0 && 105 <= b <= 150
  {
    match d
    case South => 105
    case North => 120
    case East => 135
    case West => 150
  }

  /** Each walking cycle starts one sprite after the idle cycle of the same direction. */
  lemma WalkingBaseFollowsIdleBase(d: Direction, frame: nat)
    ensures AtlasIndexOf(Walking(d), frame) == AtlasIndexOf(Idling(d), frame) + 1
    ensures AtlasIndexOf(Idling(d), 0) == DirectionBase(d)
  {
  }

  /**
   * With a frame inside its cycle, the index lies in the five sprites that
   * start at its direction's base, so the direction is recoverable from it.
   */
  lemma AtlasIndexWithinDirection(s: AnimationState, frame: nat)
    requires frame < FrameCount(s)
    ensures DirectionBase(s.direction) <= AtlasIndexOf(s, frame) < DirectionBase(s.direction) + 5
    ensures AtlasIndexOf(s, frame) / 15 == DirectionBase(s.direction) / 15
  {
  }

  /**
   * The intent-to-state mapping of `update_animation_movement`: a zero
   * intent idles facing the current direction, an intent along one axis
   * walks that way (negative y is North), a diagonal intent asks for no
   * change (`None`).
   */
  function StateForIntent(intent: Vec2, current: AnimationState): (r: Option<AnimationState>)
    ensures r.None? <==> intent.x != 0.0 && intent.y != 0.0
    ensures intent == Zero ==> r == Some(Idling(current.direction))
    ensures r.Some? ==> (r.value.Walking? <==> intent != Zero)
    ensures r.Some? && r.value.Walking? ==>
      (r.value.direction == North <==> intent.y < 0.0) && (r.value.direction == South <==> intent.y > 0.0) &&
      (r.value.direction == West <==> intent.x < 0.0) && (r.value.direction == East <==> intent.x > 0.0)
  {
    if intent == Zero then
      Some(Idling(current.direction))
    else if intent.y < 0.0 && intent.x == 0.0 then
      Some(Walking(North))
    else if intent.y > 0.0 && intent.x == 0.0 then
      Some(Walking(South))
    else if intent.x < 0.0 && intent.y == 0.0 then
      Some(Walking(West))
    else if intent.x > 0.0 && intent.y == 0.0 then
      Some(Walking(East))
    else
      None
  }

  /** `PlayerAnimation`: timer, current frame and state of one sprite. */
  class PlayerAnimation {
    var timer: Timer
    var frame: nat
    var state: AnimationState

    /** The frame stays inside the current cycle and the timer is running. */
    predicate Valid()
      reads this
    {
      frame < FrameCount(state) && timer.Valid() && timer.duration == FreshTimer(state).duration
    }

    /** `PlayerAnimation::new`, which is `idling(direction)`. */
    constructor (d: Direction)
      ensures Valid() && state == Idling(d) && frame == 0 && timer == FreshTimer(state)
    {
      timer := FreshTimer(Idling(d));
      frame := 0;
      state := Idling(d);
    }

    /** `walking(direction)`. */
    constructor Walking(d: Direction)
      ensures Valid() && state == AnimationState.Walking(d) && frame == 0 && timer == FreshTimer(state)
    {
      timer := FreshTimer(AnimationState.Walking(d));
      frame := 0;
      state := AnimationState.Walking(d);
    }

    /** `changed`: a timer period ended during the last tick. */
    function Changed(): (b: bool)
      reads this
      ensures b <==> timer.finished
    {
      timer.finished
    }

    /** `get_atlas_index` */
    function AtlasIndex(): (i: nat)
      reads this
      requires Valid()
      ensures DirectionBase(state.direction) <= i < DirectionBase(state.direction) + 5
      ensures i == AtlasIndexOf(state, frame)
    {
      AtlasIndexWithinDirection(state, frame);
      AtlasIndexOf(state, frame)
    }

    /**
     * `update_timer`: ticks the timer; when a period ended, moves to the
     * next frame of the cycle, wrapping to 0 after the last.
     */
    method UpdateTimer(delta: nat)
      modifies this
      requires Valid()
      ensures Valid() && state == old(state)
      ensures timer == old(timer).Tick(delta)
      ensures frame == if timer.finished then (old(frame) + 1) % FrameCount(state) else old(frame)
    {
      timer := timer.Tick(delta);
      if !timer.finished {
        return;
      }
      frame := (frame + 1) % match state {
        case Idling(_) => IdleFrames
        case Walking(_) => WalkingFrames
      };
    }

    /**
     * `update_state`: a different state replaces the whole animation by that
     * state's fresh one and refreshes the sprite's atlas index, if the sprite
     * has an atlas; an equal state changes nothing.
     */
    method UpdateState(s: AnimationState, spriteAtlas: Option<nat>) returns (newAtlas: Option<nat>)
      modifies this
      requires Valid()
      ensures Valid()
      ensures old(state) == s ==> state == old(state) && frame == old(frame) && timer == old(timer) && newAtlas == spriteAtlas
      ensures old(state) != s ==> state == s && frame == 0 && timer == FreshTimer(s)
      ensures old(state) != s ==> newAtlas == if spriteAtlas.Some? then Some(AtlasIndexOf(s, 0)) else None
    {
      newAtlas := spriteAtlas;
      if state != s {
        timer, frame, state := FreshTimer(s), 0, s;
        if spriteAtlas.Some? {
          newAtlas := Some(AtlasIndex());
        }
      }
    }

    /**
     * One entity's step of `update_animation_movement`: the state its
     * controller's intent calls for, if any, is handed to UpdateState.
     */
    method UpdateMovement(intent: Vec2, spriteAtlas: Option<nat>) returns (newAtlas: Option<nat>)
      modifies this
      requires Valid()
      ensures Valid()
      ensures intent.x != 0.0 && intent.y != 0.0 ==>
        state == old(state) && frame == old(frame) && timer == old(timer) && newAtlas == spriteAtlas
      ensures intent == Zero ==> state == Idling(old(state).direction)
      ensures StateForIntent(intent, old(state)).Some? ==> state == StateForIntent(intent, old(state)).value
      ensures StateForIntent(intent, old(state)) == Some(old(state)) || StateForIntent(intent, old(state)).None? ==>
        state == old(state) && frame == old(frame) && timer == old(timer) && newAtlas == spriteAtlas
      ensures StateForIntent(intent, old(state)).Some? && StateForIntent(intent, old(state)) != Some(old(state)) ==>
        && frame == 0 && timer == FreshTimer(state)
        && newAtlas == (if spriteAtlas.Some? then Some(AtlasIndexOf(state, 0)) else None)
    {
      var next := StateForIntent(intent, state);
      newAtlas := spriteAtlas;
      if next.Some? {
        newAtlas := UpdateState(next.value, spriteAtlas);
      }
    }

    /**
     * One entity's step of `update_animation_atlas`: the sprite's atlas, when
     * it has one, shows the current frame if a period ended this tick.
     */
    function RefreshedAtlas(spriteAtlas: Option<nat>): (r: Option<nat>)
      reads this
      requires Valid()
      ensures r.Some? <==> spriteAtlas.Some?
      ensures r.Some? && r != spriteAtlas ==> Changed() && r.value == AtlasIndex()
      ensures spriteAtlas.Some? && Changed() ==> r == Some(AtlasIndex())
      ensures !Changed() ==> r == spriteAtlas
    {
      if spriteAtlas.Some? && Changed() then Some(AtlasIndex()) else spriteAtlas
    }
  }

  /** Over a whole cycle of finished periods, the frame returns to where it started. */
  lemma FrameCycleReturns(frame: nat, s: AnimationState)
    requires frame < FrameCount(s)
    ensures Advance(frame, s, FrameCount(s)) == frame
  {
  }

  /** The frame after `n` finished periods. */
  function Advance(frame: nat, s: AnimationState, n: nat): (r: nat)
    requires frame < FrameCount(s)
    ensures r < FrameCount(s)
    ensures r == (frame + n) % FrameCount(s)
  {
    if n == 0 then frame else (Advance(frame, s, n - 1) + 1) % FrameCount(s)
  }
}
