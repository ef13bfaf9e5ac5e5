/** raylib's plain value types, with world coordinates as exact reals (y grows downward). */
module Geometry {
  datatype Vec2 = Vec2(x: real, y: real)

  datatype Rect = Rect(x: real, y: real, width: real, height: real)
  {
    function Bottom(): real { y + height }
  }

  /**
   * raylib's CheckCollisionRecs, which is not part of this model: it is assumed to be
   * strict axis-aligned overlap on both axes, so rectangles that only touch do not collide.
   */
  predicate CheckCollisionRecs(a: Rect, b: Rect) {
    a.x < b.x + b.width && a.x + a.width > b.x &&
    a.y < b.y + b.height && a.y + a.height > b.y
  }
}
