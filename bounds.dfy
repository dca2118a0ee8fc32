/**
 * Axis-aligned rectangles. Only the two fields of the plugin's own `Bounds2`
 * (bounds.rs, not modelled) are kept; its containment test is not part of
 * this model and is a parameter wherever it is used.
 */
module Bounds {
  import opened Vectors

  /** A rectangle given by its lower-left corner and its extent. */
  datatype Bounds2 = Bounds2(position: Vec2, size: Vec2)

  /** The rectangle with its edges. */
  predicate ClosedContains(b: Bounds2, p: Vec2) {
    && b.position.x <= p.x <= b.position.x + b.size.x
    && b.position.y <= p.y <= b.position.y + b.size.y
  }

  /** The rectangle without its edges. */
  predicate OpenContains(b: Bounds2, p: Vec2) {
    && b.position.x < p.x < b.position.x + b.size.x
    && b.position.y < p.y < b.position.y + b.size.y
  }

  /**
   * A containment test that accepts every interior point and nothing outside
   * the closed rectangle, however it treats the edges.
   */
  ghost predicate RectangleTest(inBounds: (Bounds2, Vec2) -> bool) {
    forall b, p ::
      && (OpenContains(b, p) ==> inBounds(b, p))
      && (inBounds(b, p) ==> ClosedContains(b, p))
  }
}
