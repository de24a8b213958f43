/** The pure arithmetic of pointer gestures (js/rapier.cleaned.js, the mouse
    and touch handlers): the touch-hold tolerance, the drag velocity sampled
    from pointer motion, and the velocity a dragged shape follows. */
module Gestures {
  import opened Vectors

  /** A position on screen, in pixels. */
  datatype Pixel = Pixel(x: real, y: real)

  /** How long a touch must rest on a shape before it becomes a drag. */
  const DragHoldDelayMs := 140
  /** How far, in pixels, a touch may wander before a pending drag is dropped. */
  const DragMoveTolerance := 12.0

  /** The source compares Math.hypot(dx, dy) with the tolerance; squaring
      both sides keeps the comparison free of square roots. */
  predicate MovedBeyondTolerance(start: Pixel, now: Pixel) {
    var dx := now.x - start.x;
    var dy := now.y - start.y;
    dx * dx + dy * dy > DragMoveTolerance * DragMoveTolerance
  }

  /** Comparing the squared distance with 144 decides exactly what comparing
      the distance `h` = hypot(dx, dy) with 12 decides. */
  lemma HypotTolerance(start: Pixel, now: Pixel, h: real)
    requires h >= 0.0
    requires h * h == (now.x - start.x) * (now.x - start.x) + (now.y - start.y) * (now.y - start.y)
    ensures MovedBeyondTolerance(start, now) <==> h > DragMoveTolerance
  {
    if h > DragMoveTolerance {
      SquareMonotone(DragMoveTolerance, h);
    } else if h < DragMoveTolerance {
      SquareMonotone(h, DragMoveTolerance);
    }
  }

  /** Moving exactly 12 pixels keeps a pending drag; 13 pixels drops it. */
  lemma ToleranceBoundary(start: Pixel)
    ensures !MovedBeyondTolerance(start, Pixel(start.x + 12.0, start.y))
    ensures MovedBeyondTolerance(start, Pixel(start.x, start.y - 13.0))
  {
  }

  /** Seconds elapsed between two wall-clock readings in milliseconds. */
  function ElapsedSeconds(nowMs: int, lastMs: int): real {
    (nowMs - lastMs) as real / 1000.0
  }

  /** The drag velocity sampled between two points of the drag plane `dt`
      seconds apart: moving at it for `dt` seconds covers the displacement. */
  function DragVelocity(point: Vec3, lastPoint: Vec3, dt: real): (r: Vec3)
    requires dt > 0.0
    ensures Scale(r, dt) == Sub(point, lastPoint)
  {
    var d := Sub(point, lastPoint);
    DivThenMul(d.x, dt);
    DivThenMul(d.y, dt);
    DivThenMul(d.z, dt);
    Vec3(d.x / dt, d.y / dt, d.z / dt)
  }

  /** The velocity a dragged shape is given each frame: five times its offset
      from the drag point, so in a fifth of a second it would reach it. */
  function FollowVelocity(dragPoint: Vec3, pos: Vec3): (r: Vec3)
    ensures Add(pos, Scale(r, 0.2)) == dragPoint
  {
    Scale(Sub(dragPoint, pos), 5.0)
  }

  /** The fastest a released shape is thrown. */
  const MaxThrowSpeed := 20.0
}
