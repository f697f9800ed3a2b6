/**
 * src/utils/MathUtils.h: rotation of a point about a centre, given the sine and
 * cosine of the angle. Floats are modelled as reals.
 */
module MathUtils {

  datatype Point = Point(x: real, y: real)

  /** rotatePoint(x, y, cx, cy, sinTheta, cosTheta): the by-reference (x, y) result is returned. */
  function RotatePoint(x: real, y: real, cx: real, cy: real, sinTheta: real, cosTheta: real): Point
  {
    var dx := x - cx;
    var dy := y - cy;
    Point(dx * cosTheta - dy * sinTheta + cx, dx * sinTheta + dy * cosTheta + cy)
  }

  function SquaredDistance(p: Point, cx: real, cy: real): real
  {
    (p.x - cx) * (p.x - cx) + (p.y - cy) * (p.y - cy)
  }

  /** The centre of rotation does not move. */
  lemma RotationFixesCentre(cx: real, cy: real, sinTheta: real, cosTheta: real)
    ensures RotatePoint(cx, cy, cx, cy, sinTheta, cosTheta) == Point(cx, cy)
  {
  }

  /** A rotation by angle 0 (sine 0, cosine 1) leaves every point where it is. */
  lemma ZeroRotationIsIdentity(x: real, y: real, cx: real, cy: real)
    ensures RotatePoint(x, y, cx, cy, 0.0, 1.0) == Point(x, y)
  {
  }

  /** With sin² + cos² = 1 the rotation keeps the distance to the centre. */
  lemma {:induction false} RotationPreservesDistance(x: real, y: real, cx: real, cy: real, s: real, c: real)
    requires s * s + c * c == 1.0
    ensures SquaredDistance(RotatePoint(x, y, cx, cy, s, c), cx, cy) == SquaredDistance(Point(x, y), cx, cy)
  {
    var dx := x - cx;
    var dy := y - cy;
    var p := RotatePoint(x, y, cx, cy, s, c);
    assert p.x - cx == dx * c - dy * s;
    assert p.y - cy == dx * s + dy * c;
    calc {
      (dx * c - dy * s) * (dx * c - dy * s) + (dx * s + dy * c) * (dx * s + dy * c);
      dx * dx * (c * c + s * s) + dy * dy * (s * s + c * c);
      { assert c * c + s * s == 1.0; }
      dx * dx + dy * dy;
    }
  }

  /** Rotating by the opposite angle (sine negated) undoes a rotation when sin² + cos² = 1. */
  lemma {:induction false} OppositeRotationUndoes(x: real, y: real, cx: real, cy: real, s: real, c: real)
    requires s * s + c * c == 1.0
    ensures var p := RotatePoint(x, y, cx, cy, s, c);
            RotatePoint(p.x, p.y, cx, cy, -s, c) == Point(x, y)
  {
    var dx := x - cx;
    var dy := y - cy;
    var p := RotatePoint(x, y, cx, cy, s, c);
    var ex := dx * c - dy * s;
    var ey := dx * s + dy * c;
    assert p.x - cx == ex && p.y - cy == ey;
    calc {
      ex * c - ey * (-s);
      dx * (c * c + s * s);
      dx;
    }
    calc {
      ex * (-s) + ey * c;
      dy * (s * s + c * c);
      dy;
    }
  }
}
