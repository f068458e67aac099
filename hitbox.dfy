/**
 * Axis-aligned boxes (src/gameplay/utils/hitbox.rs) over the engine's
 * `Rect`, a pair of corners `min` and `max`.
 */
module Hitboxes {
  import opened Wrappers
  import opened Vectors

  function Min(a: real, b: real): real { if a <= b then a else b }

  function Max(a: real, b: real): real { if a <= b then b else a }

  datatype Rect = Rect(min: Vec2, max: Vec2) {

    /** The engine's `Rect::is_empty`: no positive extent on some axis. */
    predicate IsEmpty() {
      min.x >= max.x || min.y >= max.y
    }

    /** The engine's `Rect::from_corners`: orders two opposite corners. */
    static function FromCorners(p0: Vec2, p1: Vec2): (r: Rect)
      ensures r.min.x <= r.max.x && r.min.y <= r.max.y
      ensures (r.min.x, r.max.x) == (p0.x, p1.x) || (r.min.x, r.max.x) == (p1.x, p0.x)
      ensures (r.min.y, r.max.y) == (p0.y, p1.y) || (r.min.y, r.max.y) == (p1.y, p0.y)
    {
      Rect(Vec2(Min(p0.x, p1.x), Min(p0.y, p1.y)), Vec2(Max(p0.x, p1.x), Max(p0.y, p1.y)))
    }
  }

  datatype Hitbox = Hitbox(rect: Rect) {

    /** Every hitbox built by `new` or `from_corners` has ordered corners. */
    predicate Valid() {
      rect.min.x <= rect.max.x && rect.min.y <= rect.max.y
    }

    /**
     * `Hitbox::new`: a rect with no positive extent fails the constructor's
     * assertion (`None`); any other rect is wrapped unchanged.
     */
    static function New(r: Rect): (h: Option<Hitbox>)
      ensures h.Some? <==> !(r.min.x >= r.max.x || r.min.y >= r.max.y)
      ensures h.Some? ==> h.value.rect == r && h.value.Width() > 0.0 && h.value.Height() > 0.0
    {
      if r.IsEmpty() then None else Some(Hitbox(r))
    }

    /** `Hitbox::from_corners`: the box spanned by two opposite corners. */
    static function FromCorners(p0: Vec2, p1: Vec2): (h: Hitbox)
      ensures h.Valid() && h.Width() >= 0.0 && h.Height() >= 0.0
      ensures h.Contains(p0) && h.Contains(p1)
      ensures h.Width() == if p0.x <= p1.x then p1.x - p0.x else p0.x - p1.x
      ensures h.Height() == if p0.y <= p1.y then p1.y - p0.y else p0.y - p1.y
    {
      Hitbox(Rect.FromCorners(p0, p1))
    }

    /** Left edge (minimum x). */
    function X1(): real { rect.min.x }

    /** Minimum y. */
    function Y1(): real { rect.min.y }

    /** Right edge (maximum x). */
    function X2(): real { rect.max.x }

    /** Maximum y. */
    function Y2(): real { rect.max.y }

    function Width(): real { X2() - X1() }

    function Height(): real { Y2() - Y1() }

    /**
     * `translate`: every edge moves by `delta`, the size does not change.
     * The source overwrites the receiver; here the moved box is returned.
     */
    function Translate(delta: Vec2): (h: Hitbox)
      requires Valid()
      ensures h.Valid()
      ensures h.X1() == X1() + delta.x && h.X2() == X2() + delta.x
      ensures h.Y1() == Y1() + delta.y && h.Y2() == Y2() + delta.y
      ensures h.Width() == Width() && h.Height() == Height()
    {
      Hitbox(Rect.FromCorners(rect.min.Add(delta), rect.max.Add(delta)))
    }

    /** Point containment, inclusive on all four edges. */
    predicate Contains(p: Vec2) {
      p.x >= X1() && p.x <= X2() && p.y >= Y1() && p.y <= Y2()
    }

    /** AABB test: boxes meet unless one lies strictly to one side of the other. */
    predicate Intersects(other: Hitbox) {
      !(X2() < other.X1() || X1() > other.X2() || Y2() < other.Y1() || Y1() > other.Y2())
    }

    /** `contains_hitbox` (its body is not part of this model): all four edges of `other` inside, inclusive. */
    predicate ContainsHitbox(other: Hitbox) {
      other.X1() >= X1() && other.X2() <= X2() && other.Y1() >= Y1() && other.Y2() <= Y2()
    }

    /** The boxes share a region of positive area. */
    predicate OverlapsInterior(other: Hitbox) {
      X1() < other.X2() && other.X1() < X2() && Y1() < other.Y2() && other.Y1() < Y2()
    }
  }

  /** `intersects` is symmetric, and every valid box meets itself. */
  lemma IntersectsSymmetricReflexive(a: Hitbox, b: Hitbox)
    ensures a.Intersects(b) <==> b.Intersects(a)
    ensures a.Valid() ==> a.Intersects(a)
  {
  }

  /** The four corners of a valid box are contained in it. */
  lemma CornersContained(h: Hitbox)
    requires h.Valid()
    ensures h.Contains(h.rect.min) && h.Contains(h.rect.max)
    ensures h.Contains(Vec2(h.X1(), h.Y2())) && h.Contains(Vec2(h.X2(), h.Y1()))
  {
  }

  /**
   * A box intersects another exactly when the two share a point: touching
   * along an edge or at a corner counts, a gap on either axis does not.
   */
  lemma IntersectsIffCommonPoint(a: Hitbox, b: Hitbox)
    requires a.Valid() && b.Valid()
    ensures a.Intersects(b) <==> exists p :: a.Contains(p) && b.Contains(p)
  {
    if a.Intersects(b) {
      var p := Vec2(Max(a.X1(), b.X1()), Max(a.Y1(), b.Y1()));
      assert a.Contains(p) && b.Contains(p);
    }
  }

  /** Boxes with a positive-area overlap intersect; touching boxes intersect without overlapping. */
  lemma OverlapImpliesIntersects(a: Hitbox, b: Hitbox)
    ensures a.OverlapsInterior(b) ==> a.Intersects(b)
    ensures a.Valid() && b.Valid() && a.X2() == b.X1() ==> !a.OverlapsInterior(b)
  {
  }
}
