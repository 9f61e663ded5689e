/** The point-in-rectangle hit test of src/utils.ts. */
module Utils {
  import opened Consts

  /** True when the point (x1, y1) lies strictly inside the rectangle whose
      top-left corner is (x2, y2) and whose size is width by height. */
  predicate CollisionCheck(x1: real, x2: real, width: real, y1: real, y2: real, height: real)
  {
    x1 > x2 && x1 < x2 + width && y1 > y2 && y1 < y2 + height
  }

  /** A point on any of the four edges is not a hit. */
  lemma EdgesDoNotCount(x1: real, x2: real, width: real, y1: real, y2: real, height: real)
    requires x1 == x2 || x1 == x2 + width || y1 == y2 || y1 == y2 + height
    ensures !CollisionCheck(x1, x2, width, y1, y2, height)
  {
  }

  /** An empty or negatively sized rectangle contains no point. */
  lemma DegenerateRectangleNeverHits(x1: real, x2: real, width: real, y1: real, y2: real, height: real)
    requires width <= 0.0 || height <= 0.0
    ensures !CollisionCheck(x1, x2, width, y1, y2, height)
  {
  }

  /** A hit tells that the rectangle is proper and that the point lies in its interior. */
  lemma HitBounds(x1: real, x2: real, width: real, y1: real, y2: real, height: real)
    requires CollisionCheck(x1, x2, width, y1, y2, height)
    ensures width > 0.0 && height > 0.0
    ensures 0.0 < x1 - x2 < width && 0.0 < y1 - y2 < height
  {
  }

  /** Moving the point and the rectangle by the same amount keeps the verdict,
      horizontally and vertically. */
  lemma TranslationInvariant(x1: real, x2: real, width: real, y1: real, y2: real, height: real, dx: real, dy: real)
    ensures CollisionCheck(x1 + dx, x2 + dx, width, y1, y2, height) == CollisionCheck(x1, x2, width, y1, y2, height)
    ensures CollisionCheck(x1, x2, width, y1 + dy, y2 + dy, height) == CollisionCheck(x1, x2, width, y1, y2, height)
  {
  }

  /** Only the point is tested, not the overlap of two boxes. The bird sprite is
      BIRD_SIZE wide and anchored at its centre, so with its anchor at most half a
      sprite to the left of a tube's left edge the sprite already overlaps the
      tube, yet the anchor is outside it and there is no hit. */
  lemma SingleCornerTest(x1: real, x2: real, width: real, y1: real, y2: real, height: real)
    requires width > 0.0 && x2 - BIRD_SIZE / 2.0 < x1 <= x2
    ensures x1 - BIRD_SIZE / 2.0 < x2 + width && x2 < x1 + BIRD_SIZE / 2.0
    ensures !CollisionCheck(x1, x2, width, y1, y2, height)
  {
  }
}
