/**
 * Mapping between physical space (metres, origin at the muzzle, y up) and
 * the canvas (pixels, origin top-left, y down), script.js:3-4 and 158-159.
 * The canvas is 1000 by 600 pixels and shows 30 m horizontally and 15 m
 * vertically; the muzzle (cannon tip) is where physical (0, 0) is drawn.
 */
module Display {
  import opened Kinematics

  const CANVAS_WIDTH: real := 1000.0
  const CANVAS_HEIGHT: real := 600.0

  /** Pixels per metre along each axis. */
  const SCALE_X: real := CANVAS_WIDTH / 30.0
  const SCALE_Y: real := CANVAS_HEIGHT / 15.0

  /** The canvas position of a physical point, drawn relative to the tip. */
  function ToPixel(tip: Point, p: Point): (q: Point)
    ensures p == Point(0.0, 0.0) ==> q == tip
  {
    Point(tip.x + p.x * SCALE_X, tip.y - p.y * SCALE_Y)
  }

  /** The physical point drawn at a canvas position: the inverse of ToPixel. */
  function ToPhysical(tip: Point, q: Point): (p: Point)
    ensures q == tip ==> p == Point(0.0, 0.0)
  {
    Point((q.x - tip.x) / SCALE_X, (tip.y - q.y) / SCALE_Y)
  }

  lemma PhysicalOfPixel(tip: Point, p: Point)
    ensures ToPhysical(tip, ToPixel(tip, p)) == p
  {
  }

  lemma PixelOfPhysical(tip: Point, q: Point)
    ensures ToPixel(tip, ToPhysical(tip, q)) == q
  {
  }

  /** Farther is further right, and higher is further up the canvas
      (a smaller pixel row); a point above the ground of the muzzle is
      drawn above the tip. */
  lemma ToPixelOrder(tip: Point, p: Point, p': Point)
    ensures p.x < p'.x <==> ToPixel(tip, p).x < ToPixel(tip, p').x
    ensures p.y < p'.y <==> ToPixel(tip, p).y > ToPixel(tip, p').y
    ensures p.y >= 0.0 <==> ToPixel(tip, p).y <= tip.y
  {
  }
}
