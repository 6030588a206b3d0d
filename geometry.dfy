/** The two geometric value types the view protocol exchanges. */
module Geometry {

  /** A two-dimensional extent (or position) with non-negative coordinates. */
  datatype Vec2 = Vec2(x: nat, y: nat)

  /** The zero extent, `Vec2::zero()`. */
  const Zero: Vec2 := Vec2(0, 0)

  /** An axis-aligned rectangle given by its top-left and bottom-right corners. */
  datatype Rect = Rect(topLeft: Vec2, bottomRight: Vec2)

  /** The rectangle `Rect::from(point)`: both corners lie on the point. */
  function FromPoint(p: Vec2): (r: Rect) {
    Rect(p, p)
  }
}
