/**
 * src/base/Rect.h: RectF, an axis-aligned rectangle given by its top-left
 * corner and its size (image coordinates, y grows downwards). Floats are reals.
 */
module Rect {

  class RectF {
    var x: real
    var y: real
    var width: real
    var height: real

    /** RectF(): all zero. */
    constructor Empty()
      ensures x == 0.0 && y == 0.0 && width == 0.0 && height == 0.0
    {
      x, y, width, height := 0.0, 0.0, 0.0, 0.0;
    }

    /** RectF(x, y, width, height) */
    constructor (x0: real, y0: real, w: real, h: real)
      ensures x == x0 && y == y0 && width == w && height == h
    {
      x, y, width, height := x0, y0, w, h;
    }

    /** The copy constructor. */
    constructor Copy(other: RectF)
      ensures Equals(other)
    {
      x, y, width, height := other.x, other.y, other.width, other.height;
    }

    /** operator==: the four fields agree. */
    predicate Equals(other: RectF)
      reads this, other
    {
      x == other.x && y == other.y && width == other.width && height == other.height
    }

    /** set(x, y, width, height) */
    method Set(x0: real, y0: real, w: real, h: real)
      modifies this
      ensures x == x0 && y == y0 && width == w && height == h
    {
      x, y, width, height := x0, y0, w, h;
    }

    /** set(other) and operator=: afterwards the rectangle equals `other` (also when `other` is this one). */
    method SetFrom(other: RectF)
      modifies this
      ensures x == old(other.x) && y == old(other.y) && width == old(other.width) && height == old(other.height)
      ensures Equals(other)
    {
      Set(other.x, other.y, other.width, other.height);
    }

    predicate IsEmpty()
      reads this
    {
      width <= 0.0 || height <= 0.0
    }

    function Area(): real
      reads this
    {
      width * height
    }

    function Left(): real reads this { x }

    function Top(): real reads this { y }

    function Right(): real reads this { x + width }

    function Bottom(): real reads this { y + height }

    function CenterX(): real reads this { x + width / 2.0 }

    function CenterY(): real reads this { y + height / 2.0 }
  }

  /** A rectangle is empty exactly when its right edge is not past its left one or its bottom not below its top. */
  lemma EmptyIffNoInterior(r: RectF)
    ensures r.IsEmpty() <==> r.Right() <= r.Left() || r.Bottom() <= r.Top()
  {
  }

  /** A non-empty rectangle has positive area; an empty one with non-negative sides has none. */
  lemma AreaOfEmpty(r: RectF)
    ensures !r.IsEmpty() ==> r.Area() > 0.0
    ensures r.IsEmpty() && r.width >= 0.0 && r.height >= 0.0 ==> r.Area() == 0.0
  {
  }

  /** The centre is the midpoint of opposite edges. */
  lemma CenterIsMidpoint(r: RectF)
    ensures r.CenterX() == (r.Left() + r.Right()) / 2.0
    ensures r.CenterY() == (r.Top() + r.Bottom()) / 2.0
  {
  }

  /** operator== holds exactly when the four edges coincide: the edges determine the rectangle. */
  lemma EqualsIffSameEdges(r: RectF, o: RectF)
    ensures r.Equals(o) <==>
              r.Left() == o.Left() && r.Top() == o.Top() && r.Right() == o.Right() && r.Bottom() == o.Bottom()
  {
  }
}
