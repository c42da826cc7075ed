/**
 Collision geometry of the swan game: axis-aligned boxes, the inset hitboxes
 derived from sprite bounds, and the strict overlap test between two boxes.
 Coordinates are canvas pixels, x growing to the right and y growing downwards.
 */
module Geometry {

  /** An axis-aligned rectangle: top-left corner (x, y) and its extent. */
  datatype Box = Box(x: real, y: real, width: real, height: real)

  function Right(b: Box): real { b.x + b.width }
  function Bottom(b: Box): real { b.y + b.height }
  function Area(b: Box): real { b.width * b.height }

  /** `inner` lies within the closed extent of `outer`. */
  predicate Within(inner: Box, outer: Box)
  {
    outer.x <= inner.x && Right(inner) <= Right(outer) &&
    outer.y <= inner.y && Bottom(inner) <= Bottom(outer)
  }

  /** The point (px, py) lies strictly inside `b`. */
  predicate Inside(b: Box, px: real, py: real)
  {
    b.x < px < Right(b) && b.y < py < Bottom(b)
  }

  /** The two boxes are apart on at least one axis (touching edges count as apart). */
  predicate Separated(a: Box, b: Box)
  {
    Right(a) <= b.x || Right(b) <= a.x || Bottom(a) <= b.y || Bottom(b) <= a.y
  }

  /**
   The overlap test of the game: strict inequalities on both axes. Two boxes
   collide exactly when they are not apart on either axis.
   */
  predicate IsColliding(a: Box, b: Box)
    ensures IsColliding(a, b) <==> !Separated(a, b)
  {
    a.x < b.x + b.width &&
    a.x + a.width > b.x &&
    a.y < b.y + b.height &&
    a.y + a.height > b.y
  }

  /**
   The collision box of an obstacle: its bounds scaled to 80% and inset by 10%
   of the width and height on the left and top, so that it keeps the centre.
   */
  function ObstacleHitbox(ob: Box): (r: Box)
    ensures r.x == ob.x + 0.1 * ob.width && Right(r) == ob.x + 0.9 * ob.width
    ensures r.y == ob.y + 0.1 * ob.height && Bottom(r) == ob.y + 0.9 * ob.height
    ensures r.x + r.width / 2.0 == ob.x + ob.width / 2.0
    ensures r.y + r.height / 2.0 == ob.y + ob.height / 2.0
    ensures Area(r) == 0.64 * Area(ob)
    ensures ob.width >= 0.0 && ob.height >= 0.0 ==> Within(r, ob)
  {
    Box(ob.x + ob.width * 0.1, ob.y + ob.height * 0.1, ob.width * 0.8, ob.height * 0.8)
  }

  /**
   The collision box of the swan, computed from its sprite bounds and pose.
   The box is 28 narrower than the sprite and centred on x + 18 in both poses;
   standing it starts 10 below the sprite top and is 20 shorter, ducking it
   starts 30 below the top and is 36 shorter.
   */
  function SwanHitbox(sprite: Box, ducking: bool): (r: Box)
    ensures r.width == sprite.width - 28.0
    ensures r.x + r.width / 2.0 == sprite.x + 18.0
    ensures r.y == sprite.y + (if ducking then 30.0 else 10.0)
    ensures Bottom(r) == Bottom(sprite) - (if ducking then 6.0 else 10.0)
  {
    var width := sprite.width - 28.0;
    Box(sprite.x + 18.0 - width / 2.0,
        if ducking then sprite.y + 30.0 else sprite.y + 10.0,
        width,
        if ducking then sprite.height - 36.0 else sprite.height - 20.0)
  }

  /** Ducking keeps the horizontal extent, moves the top down by 20 and the height down by 16. */
  lemma SwanPosesCompared(sprite: Box)
    ensures SwanHitbox(sprite, true).x == SwanHitbox(sprite, false).x
    ensures SwanHitbox(sprite, true).width == SwanHitbox(sprite, false).width
    ensures SwanHitbox(sprite, true).y == SwanHitbox(sprite, false).y + 20.0
    ensures SwanHitbox(sprite, true).height == SwanHitbox(sprite, false).height - 16.0
    ensures Bottom(SwanHitbox(sprite, true)) == Bottom(SwanHitbox(sprite, false)) + 4.0
  {
  }

  /** A sprite wider than 28 and taller than 36 gives a non-degenerate hitbox in both poses. */
  lemma SwanHitboxNonEmpty(sprite: Box, ducking: bool)
    requires sprite.width > 28.0 && sprite.height > 36.0
    ensures SwanHitbox(sprite, ducking).width > 0.0
    ensures SwanHitbox(sprite, ducking).height > 0.0
  {
  }

  /** The overlap test does not depend on the order of its arguments. */
  lemma CollidingSymmetric(a: Box, b: Box)
    ensures IsColliding(a, b) == IsColliding(b, a)
  {
  }

  /** Boxes that only share an edge do not collide. */
  lemma TouchingDoesNotCollide(a: Box, b: Box)
    requires Right(a) == b.x || Bottom(a) == b.y
    ensures !IsColliding(a, b) && !IsColliding(b, a)
  {
  }

  /** A box collides with itself exactly when it has positive width and height. */
  lemma SelfCollision(a: Box)
    ensures IsColliding(a, a) <==> a.width > 0.0 && a.height > 0.0
  {
  }

  /**
   For boxes of positive size, the overlap test agrees with the geometric
   meaning of overlap: some point lies strictly inside both boxes.
   */
  lemma CollidingIffCommonPoint(a: Box, b: Box)
    requires a.width > 0.0 && a.height > 0.0 && b.width > 0.0 && b.height > 0.0
    ensures IsColliding(a, b) <==> exists px, py :: Inside(a, px, py) && Inside(b, px, py)
  {
    if IsColliding(a, b) {
      var left := if a.x < b.x then b.x else a.x;
      var right := if Right(a) < Right(b) then Right(a) else Right(b);
      var top := if a.y < b.y then b.y else a.y;
      var bottom := if Bottom(a) < Bottom(b) then Bottom(a) else Bottom(b);
      var px, py := (left + right) / 2.0, (top + bottom) / 2.0;
      assert Inside(a, px, py) && Inside(b, px, py);
    }
  }

  /** A ducking swan never collides with a box that ends above its ducking top. */
  lemma DuckingClearsBoxAbove(sprite: Box, b: Box)
    requires Bottom(b) <= sprite.y + 30.0
    ensures !IsColliding(SwanHitbox(sprite, true), b)
  {
  }

  /** Shrinking to hitboxes never creates a collision that the sprite bounds do not have. */
  lemma ObstacleHitboxCollisionImpliesBoundsCollision(ob: Box, b: Box)
    requires ob.width >= 0.0 && ob.height >= 0.0
    requires IsColliding(b, ObstacleHitbox(ob))
    ensures IsColliding(b, ob)
  {
  }
}
