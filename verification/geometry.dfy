/** Axis-aligned boxes, velocities and platforms of the game view.
    Screen coordinates: x grows to the right, y grows downward. */
module Geometry {

  /** An Android RectF: (left, top, right, bottom). */
  datatype Rect = Rect(left: real, top: real, right: real, bottom: real) {

    function Width(): real { right - left }

    function Height(): real { bottom - top }

    function CenterY(): real { (top + bottom) / 2.0 }

    /** RectF.offset: a translation, which keeps the box's size. */
    function Offset(dx: real, dy: real): (r: Rect)
      ensures r.Width() == Width() && r.Height() == Height()
      ensures r.left == left + dx && r.top == top + dy
    {
      Rect(left + dx, top + dy, right + dx, bottom + dy)
    }
  }

  /** A velocity in screen units per tick. */
  datatype Vec2 = Vec2(x: real, y: real)

  /** One collidable segment. The four kind flags are independent booleans,
      as in the program; only `revealed` changes during play. */
  datatype Platform = Platform(
    rect: Rect,
    fake: bool,
    deadly: bool,
    hiddenUntilTouch: bool,
    isGoal: bool,
    revealed: bool)
  {
    /** Fake and hidden platforms are the ones a respawn hides again. */
    predicate Resettable() { fake || hiddenUntilTouch }

    /** Same box and same kind flags; `revealed` may differ. */
    predicate SameLayout(other: Platform) {
      other.rect == rect && other.fake == fake && other.deadly == deadly
      && other.hiddenUntilTouch == hiddenUntilTouch && other.isGoal == isGoal
    }
  }
}
