/**
 * src/opengl/wrap/GLCoord.h: GLRect, a rectangle with a rotation and flips
 * that turns into the eight floats of a quad (four (x, y) corners in the order
 * left-bottom, right-bottom, left-top, right-top), and GLCoord, the buffer
 * holding such a quad for a filter, in its texture and vertex flavours.
 *
 * Floats are reals. The sine and cosine of GLRect's rotation are parameters of
 * the operations that use them.
 */
module GLCoord {
  import opened Log
  import opened MathUtils

  /** TEX_COORD_SIZE and VERTEX_COORD_SIZE */
  const COORD_SIZE: int := 8

  // ---------------------------------------------------------------------------
  // Quads
  // ---------------------------------------------------------------------------

  /** The swaps of a horizontal flip: corner 1 with 2 and corner 3 with 4. */
  function SwapH(c: seq<real>): (r: seq<real>)
    requires |c| == 8
    ensures |r| == 8
  {
    [c[2], c[3], c[0], c[1], c[6], c[7], c[4], c[5]]
  }

  /** The swaps of a vertical flip: corner 1 with 4 and corner 2 with 3. */
  function SwapV(c: seq<real>): (r: seq<real>)
    requires |c| == 8
    ensures |r| == 8
  {
    [c[6], c[7], c[4], c[5], c[2], c[3], c[0], c[1]]
  }

  /** The flips of a quad: horizontal first, then vertical, as both toGLCoords and setRect apply them. */
  function Flipped(c: seq<real>, flipH: bool, flipV: bool): (r: seq<real>)
    requires |c| == 8
    ensures |r| == 8
  {
    var h := if flipH then SwapH(c) else c;
    if flipV then SwapV(h) else h
  }

  /** Each flip undoes itself, the two commute, and flipping twice with the same flags restores the quad. */
  lemma FlipsAreInvolutions(c: seq<real>, flipH: bool, flipV: bool)
    requires |c| == 8
    ensures SwapH(SwapH(c)) == c && SwapV(SwapV(c)) == c
    ensures SwapH(SwapV(c)) == SwapV(SwapH(c))
    ensures Flipped(Flipped(c, flipH, flipV), flipH, flipV) == c
  {
  }

  // ---------------------------------------------------------------------------
  // In-place flips on a float buffer
  // ---------------------------------------------------------------------------

  /** The four std::swap calls of a horizontal flip. */
  method SwapHInPlace(a: array<real>)
    requires a.Length >= 8
    modifies a
    ensures a[..8] == SwapH(old(a[..8]))
    ensures a[8..] == old(a[8..])
  {
    a[0], a[2] := a[2], a[0];
    a[1], a[3] := a[3], a[1];
    a[4], a[6] := a[6], a[4];
    a[5], a[7] := a[7], a[5];
  }

  /** The four std::swap calls of a vertical flip. */
  method SwapVInPlace(a: array<real>)
    requires a.Length >= 8
    modifies a
    ensures a[..8] == SwapV(old(a[..8]))
    ensures a[8..] == old(a[8..])
  {
    a[0], a[6] := a[6], a[0];
    a[1], a[7] := a[7], a[1];
    a[2], a[4] := a[4], a[2];
    a[3], a[5] := a[5], a[3];
  }

  /** `if (flipH) {...} if (flipV) {...}` as toGLCoords and setRect write it. */
  method ApplyFlips(a: array<real>, flipH: bool, flipV: bool)
    requires a.Length >= 8
    modifies a
    ensures a[..8] == Flipped(old(a[..8]), flipH, flipV)
    ensures a[8..] == old(a[8..])
  {
    if flipH {
      SwapHInPlace(a);
    }
    if flipV {
      SwapVInPlace(a);
    }
  }

  // ---------------------------------------------------------------------------
  // GLRect
  // ---------------------------------------------------------------------------

  /**
   * The corners of toGLCoords before the flips: left-bottom (x, y + h),
   * right-bottom, left-top (x, y) and right-top, each rotated about the
   * rectangle's centre, then divided by the output size. Rotation comes before
   * normalisation, so the rotated shape keeps its proportions.
   */
  function UnflippedQuad(x: real, y: real, w: real, h: real, sinTheta: real, cosTheta: real,
                         outW: real, outH: real): (r: seq<real>)
    requires outW != 0.0 && outH != 0.0
    ensures |r| == 8
  {
    var cx := x + w / 2.0;
    var cy := y + h / 2.0;
    var p1 := RotatePoint(x, y + h, cx, cy, sinTheta, cosTheta);
    var p2 := RotatePoint(x + w, y + h, cx, cy, sinTheta, cosTheta);
    var p3 := RotatePoint(x, y, cx, cy, sinTheta, cosTheta);
    var p4 := RotatePoint(x + w, y, cx, cy, sinTheta, cosTheta);
    [p1.x / outW, p1.y / outH, p2.x / outW, p2.y / outH, p3.x / outW, p3.y / outH, p4.x / outW, p4.y / outH]
  }

  /** toGLCoords as a function of the rectangle: the unflipped quad, then the flips. */
  function GLCoordsOf(x: real, y: real, w: real, h: real, sinTheta: real, cosTheta: real,
                      flipH: bool, flipV: bool, outW: real, outH: real): (r: seq<real>)
    requires outW != 0.0 && outH != 0.0
    ensures |r| == 8
  {
    Flipped(UnflippedQuad(x, y, w, h, sinTheta, cosTheta, outW, outH), flipH, flipV)
  }

  /** toVertexCoords' loop: x in [0, 1] goes to 2x - 1, y in [0, 1] goes to 1 - 2y (the y axis turns upwards). */
  function ToVertex(c: seq<real>): (r: seq<real>)
    requires |c| == 8
    ensures |r| == 8
    ensures forall i :: 0 <= i < 8 && i % 2 == 0 ==> r[i] == c[i] * 2.0 - 1.0
    ensures forall i :: 0 <= i < 8 && i % 2 == 1 ==> r[i] == 1.0 - c[i] * 2.0
  {
    seq(8, i requires 0 <= i < 8 => if i % 2 == 0 then c[i] * 2.0 - 1.0 else 1.0 - c[i] * 2.0)
  }

  /** Normalised coordinates in [0, 1] become clip-space coordinates in [-1, 1]. */
  lemma ToVertexRange(c: seq<real>)
    requires |c| == 8 && forall i :: 0 <= i < 8 ==> 0.0 <= c[i] <= 1.0
    ensures forall i :: 0 <= i < 8 ==> -1.0 <= ToVertex(c)[i] <= 1.0
  {
  }

  /** VertexCoord's DEFAULT_COORDS, the whole view. */
  const DEFAULT_VERTEX_COORDS: seq<real> := [-1.0, -1.0, 1.0, -1.0, -1.0, 1.0, 1.0, 1.0]

  /** TextureCoord's ROTATED_0, the whole texture. */
  const ROTATED_0: seq<real> := [0.0, 0.0, 1.0, 0.0, 0.0, 1.0, 1.0, 1.0]
  const ROTATED_90: seq<real> := [1.0, 0.0, 1.0, 1.0, 0.0, 0.0, 0.0, 1.0]
  const ROTATED_180: seq<real> := [1.0, 1.0, 0.0, 1.0, 1.0, 0.0, 0.0, 0.0]
  const ROTATED_270: seq<real> := [0.0, 1.0, 0.0, 0.0, 1.0, 1.0, 1.0, 0.0]

  /**
   * A rectangle covering the whole view, unrotated and unflipped, yields the
   * default vertex quad; as texture coordinates it yields ROTATED_0 upside down.
   */
  lemma {:induction false} FullRectCoords(w: real, h: real)
    requires w != 0.0 && h != 0.0
    ensures ToVertex(GLCoordsOf(0.0, 0.0, w, h, 0.0, 1.0, false, false, w, h)) == DEFAULT_VERTEX_COORDS
    ensures GLCoordsOf(0.0, 0.0, w, h, 0.0, 1.0, false, false, w, h) == [0.0, 1.0, 1.0, 1.0, 0.0, 0.0, 1.0, 0.0]
  {
    var cx := w / 2.0;
    var cy := h / 2.0;
    ZeroRotationIsIdentity(0.0, h, cx, cy);
    ZeroRotationIsIdentity(w, h, cx, cy);
    ZeroRotationIsIdentity(0.0, 0.0, cx, cy);
    ZeroRotationIsIdentity(w, 0.0, cx, cy);
    var g := [0.0, 1.0, 1.0, 1.0, 0.0, 0.0, 1.0, 0.0];
    assert UnflippedQuad(0.0, 0.0, w, h, 0.0, 1.0, w, h) == [0.0 / w, h / h, w / w, h / h, 0.0 / w, 0.0 / h, w / w, 0.0 / h];
    assert h / h == 1.0 && w / w == 1.0 && 0.0 / w == 0.0 && 0.0 / h == 0.0;
    assert UnflippedQuad(0.0, 0.0, w, h, 0.0, 1.0, w, h) == g;
    var v := ToVertex(g);
    assert v[0] == -1.0 && v[1] == -1.0 && v[2] == 1.0 && v[3] == -1.0;
    assert v[4] == -1.0 && v[5] == 1.0 && v[6] == 1.0 && v[7] == 1.0;
    assert v == DEFAULT_VERTEX_COORDS;
  }

  /** About its own centre, the rotated corners of a rectangle still sum to four times the centre. */
  lemma {:induction false} RotatedCornersSum(x: real, y: real, w: real, h: real, s: real, c: real)
    ensures var cx := x + w / 2.0;
            var cy := y + h / 2.0;
            var p1 := RotatePoint(x, y + h, cx, cy, s, c);
            var p2 := RotatePoint(x + w, y + h, cx, cy, s, c);
            var p3 := RotatePoint(x, y, cx, cy, s, c);
            var p4 := RotatePoint(x + w, y, cx, cy, s, c);
            && p1.x + p2.x + p3.x + p4.x == 4.0 * cx
            && p1.y + p2.y + p3.y + p4.y == 4.0 * cy
  {
    var hw := w / 2.0;
    var hh := h / 2.0;
    var a := hw * c;
    var b := hh * s;
    var d := hw * s;
    var e := hh * c;
    assert (-hw) * c == -a && (-hh) * s == -b && (-hw) * s == -d && (-hh) * c == -e;
  }

  /** Dividing each of four terms by the same non-zero value divides their sum. */
  lemma DivideSum(a: real, b: real, c: real, d: real, o: real)
    requires o != 0.0
    ensures a / o + b / o + c / o + d / o == (a + b + c + d) / o
  {
  }

  lemma QuarterOfQuadruple(a: real, o: real)
    requires o != 0.0
    ensures (4.0 * a / o) / 4.0 == a / o
  {
  }

  /** Flips permute the x entries among themselves and the y entries among themselves. */
  lemma FlippedKeepsAxisSums(u: seq<real>, flipH: bool, flipV: bool)
    requires |u| == 8
    ensures var q := Flipped(u, flipH, flipV);
            && q[0] + q[2] + q[4] + q[6] == u[0] + u[2] + u[4] + u[6]
            && q[1] + q[3] + q[5] + q[7] == u[1] + u[3] + u[5] + u[7]
  {
  }

  /**
   * Rotation is about the rectangle's centre and flips only permute corners, so
   * whatever the angle and flips, the corners average to the normalised centre.
   */
  lemma {:induction false} CornersAverageToCentre(x: real, y: real, w: real, h: real, s: real, c: real,
                                                  flipH: bool, flipV: bool, outW: real, outH: real)
    requires outW != 0.0 && outH != 0.0
    ensures var q := GLCoordsOf(x, y, w, h, s, c, flipH, flipV, outW, outH);
            && (q[0] + q[2] + q[4] + q[6]) / 4.0 == (x + w / 2.0) / outW
            && (q[1] + q[3] + q[5] + q[7]) / 4.0 == (y + h / 2.0) / outH
  {
    var cx := x + w / 2.0;
    var cy := y + h / 2.0;
    var p1 := RotatePoint(x, y + h, cx, cy, s, c);
    var p2 := RotatePoint(x + w, y + h, cx, cy, s, c);
    var p3 := RotatePoint(x, y, cx, cy, s, c);
    var p4 := RotatePoint(x + w, y, cx, cy, s, c);
    RotatedCornersSum(x, y, w, h, s, c);
    var u := UnflippedQuad(x, y, w, h, s, c, outW, outH);
    assert u == [p1.x / outW, p1.y / outH, p2.x / outW, p2.y / outH, p3.x / outW, p3.y / outH, p4.x / outW, p4.y / outH];
    FlippedKeepsAxisSums(u, flipH, flipV);
    DivideSum(p1.x, p2.x, p3.x, p4.x, outW);
    DivideSum(p1.y, p2.y, p3.y, p4.y, outH);
    QuarterOfQuadruple(cx, outW);
    QuarterOfQuadruple(cy, outH);
  }

  /** The rectangle of centerScale as the source writes it: its "centre" is ((x + width) / 2, (y + height) / 2). */
  function CenterScaledAsWritten(x: real, y: real, w: real, h: real, sx: real, sy: real): (real, real, real, real)
  {
    var cx := (x + w) / 2.0;
    var cy := (y + h) / 2.0;
    (cx - w * sx / 2.0, cy - h * sy / 2.0, w * sx, h * sy)
  }

  /** As written, scaling by 1 moves a rectangle that does not start at the origin. */
  lemma CenterScaleAsWrittenMovesRect()
    ensures CenterScaledAsWritten(10.0, 0.0, 10.0, 10.0, 1.0, 1.0) == (5.0, 0.0, 10.0, 10.0)
  {
  }

  /** centerScale as intended: scale about the rectangle's own centre x + width / 2. */
  function CenterScaled(x: real, y: real, w: real, h: real, sx: real, sy: real): (r: (real, real, real, real))
    ensures r.2 == w * sx && r.3 == h * sy
    ensures r.0 + r.2 / 2.0 == x + w / 2.0 && r.1 + r.3 / 2.0 == y + h / 2.0
  {
    var cx := x + w / 2.0;
    var cy := y + h / 2.0;
    (cx - w * sx / 2.0, cy - h * sy / 2.0, w * sx, h * sy)
  }

  /** Scaling about the centre by 1 changes nothing, and the two definitions agree only for a rectangle at the origin. */
  lemma CenterScaledProperties(x: real, y: real, w: real, h: real, sx: real, sy: real)
    ensures CenterScaled(x, y, w, h, 1.0, 1.0) == (x, y, w, h)
    ensures CenterScaledAsWritten(x, y, w, h, sx, sy).0 == CenterScaled(x, y, w, h, sx, sy).0 <==> x == 0.0
  {
  }

  class GLRect {
    var x: real
    var y: real
    var width: real
    var height: real
    /** Degrees. */
    var rotation: real
    var flipH: bool
    var flipV: bool

    /** GLRect(): all zero, no flip. */
    constructor Zero()
      ensures x == 0.0 && y == 0.0 && width == 0.0 && height == 0.0
      ensures rotation == 0.0 && !flipH && !flipV
    {
      x, y, width, height, rotation, flipH, flipV := 0.0, 0.0, 0.0, 0.0, 0.0, false, false;
    }

    /** GLRect(x, y, w, h) */
    constructor (x0: real, y0: real, w: real, h: real)
      ensures x == x0 && y == y0 && width == w && height == h
      ensures rotation == 0.0 && !flipH && !flipV
    {
      x, y, width, height, rotation, flipH, flipV := x0, y0, w, h, 0.0, false, false;
    }

    /** The copy constructor. */
    constructor Copy(o: GLRect)
      ensures SameAs(o)
    {
      x, y, width, height, rotation, flipH, flipV := o.x, o.y, o.width, o.height, o.rotation, o.flipH, o.flipV;
    }

    predicate SameAs(o: GLRect)
      reads this, o
    {
      x == o.x && y == o.y && width == o.width && height == o.height
      && rotation == o.rotation && flipH == o.flipH && flipV == o.flipV
    }

    /** operator=: all seven fields. */
    method Assign(o: GLRect)
      modifies this
      ensures x == old(o.x) && y == old(o.y) && width == old(o.width) && height == old(o.height)
      ensures rotation == old(o.rotation) && flipH == old(o.flipH) && flipV == old(o.flipV)
    {
      x, y, width, height, rotation, flipH, flipV := o.x, o.y, o.width, o.height, o.rotation, o.flipH, o.flipV;
    }

    /** empty(): unlike RectF::isEmpty, both sides must be non-positive. */
    predicate Empty()
      reads this
    {
      width <= 0.0 && height <= 0.0
    }

    /** reset(): back to the state of GLRect(). */
    method Reset()
      modifies this
      ensures x == 0.0 && y == 0.0 && width == 0.0 && height == 0.0
      ensures rotation == 0.0 && !flipH && !flipV
      ensures Empty()
    {
      x, y, width, height, rotation, flipH, flipV := 0.0, 0.0, 0.0, 0.0, 0.0, false, false;
    }

    /** setRect(x, y, w, h): rotation and flips stay. */
    method SetRect(x0: real, y0: real, w: real, h: real)
      modifies this
      ensures x == x0 && y == y0 && width == w && height == h
      ensures rotation == old(rotation) && flipH == old(flipH) && flipV == old(flipV)
    {
      x, y, width, height := x0, y0, w, h;
    }

    method SetFlipH(h: bool)
      modifies this
      ensures flipH == h && flipV == old(flipV)
      ensures x == old(x) && y == old(y) && width == old(width) && height == old(height) && rotation == old(rotation)
    {
      flipH := h;
    }

    method SetFlipV(v: bool)
      modifies this
      ensures flipV == v && flipH == old(flipH)
      ensures x == old(x) && y == old(y) && width == old(width) && height == old(height) && rotation == old(rotation)
    {
      flipV := v;
    }

    method SetFlip(h: bool, v: bool)
      modifies this
      ensures flipH == h && flipV == v
      ensures x == old(x) && y == old(y) && width == old(width) && height == old(height) && rotation == old(rotation)
    {
      flipH, flipV := h, v;
    }

    /** translate(dx, dy): moves the origin, keeps the size. */
    method Translate(dx: real, dy: real)
      modifies this
      ensures x == old(x) + dx && y == old(y) + dy
      ensures width == old(width) && height == old(height)
      ensures rotation == old(rotation) && flipH == old(flipH) && flipV == old(flipV)
    {
      x := x + dx;
      y := y + dy;
    }

    /** scale(sx, sy): scales the size about the origin corner. */
    method Scale(sx: real, sy: real)
      modifies this
      ensures width == old(width) * sx && height == old(height) * sy
      ensures x == old(x) && y == old(y)
      ensures rotation == old(rotation) && flipH == old(flipH) && flipV == old(flipV)
    {
      width := width * sx;
      height := height * sy;
    }

    /** centerScale(sx, sy), with the centre computed as intended (see CenterScaledAsWritten). */
    method CenterScale(sx: real, sy: real)
      modifies this
      ensures (x, y, width, height) == CenterScaled(old(x), old(y), old(width), old(height), sx, sy)
      ensures x + width / 2.0 == old(x + width / 2.0) && y + height / 2.0 == old(y + height / 2.0)
      ensures rotation == old(rotation) && flipH == old(flipH) && flipV == old(flipV)
    {
      var r := CenterScaled(x, y, width, height, sx, sy);
      x, y, width, height := r.0, r.1, r.2, r.3;
    }

    /** The quad of this rectangle for an output of outW x outH. */
    function Quad(outW: real, outH: real, sinTheta: real, cosTheta: real): seq<real>
      reads this
      requires outW != 0.0 && outH != 0.0
    {
      GLCoordsOf(x, y, width, height, sinTheta, cosTheta, flipH, flipV, outW, outH)
    }

    /**
     * toGLCoords(outW, outH, coords): writes the eight floats, then applies the
     * flips by swapping in place. `sinTheta` and `cosTheta` are the sine and
     * cosine of the rotation, which the source computes.
     */
    method ToGLCoords(outW: real, outH: real, sinTheta: real, cosTheta: real, coords: array<real>)
      requires coords.Length >= 8 && outW != 0.0 && outH != 0.0
      requires rotation == 0.0 ==> sinTheta == 0.0 && cosTheta == 1.0
      modifies coords
      ensures coords[..8] == Quad(outW, outH, sinTheta, cosTheta)
      ensures coords[8..] == old(coords[8..])
    {
      var u := UnflippedQuad(x, y, width, height, sinTheta, cosTheta, outW, outH);
      forall i | 0 <= i < 8 {
        coords[i] := u[i];
      }
      assert coords[..8] == u;
      ApplyFlips(coords, flipH, flipV);
    }

    /** toVertexCoords(viewW, viewH, coords): the quad in clip space. */
    method ToVertexCoords(viewW: real, viewH: real, sinTheta: real, cosTheta: real, coords: array<real>)
      requires coords.Length >= 8 && viewW != 0.0 && viewH != 0.0
      requires rotation == 0.0 ==> sinTheta == 0.0 && cosTheta == 1.0
      modifies coords
      ensures coords[..8] == ToVertex(Quad(viewW, viewH, sinTheta, cosTheta))
      ensures coords[8..] == old(coords[8..])
    {
      ToGLCoords(viewW, viewH, sinTheta, cosTheta, coords);
      ghost var q := coords[..8];
      var i := 0;
      while i < 4
        invariant 0 <= i <= 4
        invariant forall k :: 0 <= k < 2 * i ==> coords[k] == ToVertex(q)[k]
        invariant forall k :: 2 * i <= k < 8 ==> coords[k] == q[k]
        invariant coords[8..] == old(coords[8..])
      {
        coords[i * 2] := coords[i * 2] * 2.0 - 1.0;
        coords[i * 2 + 1] := 1.0 - coords[i * 2 + 1] * 2.0;
        i := i + 1;
      }
    }

    /** toTextureCoords(texWidth, texHeight, coords): the quad normalised to the texture. */
    method ToTextureCoords(texW: real, texH: real, sinTheta: real, cosTheta: real, coords: array<real>)
      requires coords.Length >= 8 && texW != 0.0 && texH != 0.0
      requires rotation == 0.0 ==> sinTheta == 0.0 && cosTheta == 1.0
      modifies coords
      ensures coords[..8] == Quad(texW, texH, sinTheta, cosTheta)
      ensures coords[8..] == old(coords[8..])
    {
      ToGLCoords(texW, texH, sinTheta, cosTheta, coords);
    }
  }

  // ---------------------------------------------------------------------------
  // TextureCoord tables
  // ---------------------------------------------------------------------------

  /** C++ `%` on int: the remainder truncates toward zero and takes the sign of the dividend. */
  function CRem(a: int, b: int): (r: int)
    requires b > 0
    ensures -b < r < b
    ensures a >= 0 ==> r >= 0
    ensures a < 0 ==> r <= 0
  {
    if a >= 0 then a % b else -((-a) % b)
  }

  /** The table setFullCoord copies for a reduced rotation, or none when the rotation is invalid. */
  function RotationTable(rot: int): (t: Option<seq<real>>)
    ensures t.Some? <==> rot == 0 || rot == 90 || rot == 180 || rot == 270
    ensures t.Some? ==> |t.value| == 8
  {
    if rot == 90 then Some(ROTATED_90)
    else if rot == 180 then Some(ROTATED_180)
    else if rot == 270 then Some(ROTATED_270)
    else if rot == 0 then Some(ROTATED_0)
    else None
  }

  datatype Option<T> = None | Some(value: T)

  /** flip(c) = 1 - c on the x entries for flipH and on the y entries for flipV. */
  function FlipEntries(c: seq<real>, flipH: bool, flipV: bool): (r: seq<real>)
    requires |c| == 8
    ensures |r| == 8
  {
    seq(8, i requires 0 <= i < 8 =>
      if (i % 2 == 0 && flipH) || (i % 2 == 1 && flipV) then 1.0 - c[i] else c[i])
  }

  /** setFullCoord's flips: `coords[i] = flip(coords[i])` on the x entries, then on the y entries. */
  method FlipEntriesInPlace(a: array<real>, flipH: bool, flipV: bool)
    requires a.Length >= 8
    modifies a
    ensures a[..8] == FlipEntries(old(a[..8]), flipH, flipV)
    ensures a[8..] == old(a[8..])
  {
    ghost var c := a[..8];
    if flipH {
      a[0], a[2], a[4], a[6] := 1.0 - a[0], 1.0 - a[2], 1.0 - a[4], 1.0 - a[6];
    }
    if flipV {
      a[1], a[3], a[5], a[7] := 1.0 - a[1], 1.0 - a[3], 1.0 - a[5], 1.0 - a[7];
    }
    forall i | 0 <= i < 8
      ensures a[i] == FlipEntries(c, flipH, flipV)[i]
    {
    }
  }

  /** A quarter turn of the texture: each corner (u, v) moves to (1 - v, u). */
  function QuarterTurn(c: seq<real>): (r: seq<real>)
    requires |c| == 8
    ensures |r| == 8
  {
    seq(8, i requires 0 <= i < 8 => if i % 2 == 0 then 1.0 - c[i + 1] else c[i - 1])
  }

  /** Each rotation table is the previous one turned by a quarter, and four quarter turns close the cycle. */
  lemma RotationTablesTurn()
    ensures QuarterTurn(ROTATED_0) == ROTATED_90
    ensures QuarterTurn(ROTATED_90) == ROTATED_180
    ensures QuarterTurn(ROTATED_180) == ROTATED_270
    ensures QuarterTurn(ROTATED_270) == ROTATED_0
  {
  }

  /** Flipping both ways is the half turn, and the flips of setFullCoord only ever produce 0s and 1s. */
  lemma FullCoordFlips(rot: int, flipH: bool, flipV: bool)
    requires RotationTable(rot).Some?
    ensures FlipEntries(ROTATED_0, true, true) == ROTATED_180
    ensures var r := FlipEntries(RotationTable(rot).value, flipH, flipV);
            forall i :: 0 <= i < 8 ==> r[i] == 0.0 || r[i] == 1.0
  {
  }

  /**
   * setFullCoord reduces the rotation with C++ `%`, so a negative quarter turn
   * stays negative and is rejected, while any multiple of 360 plus 0, 90, 180 or
   * 270 is accepted.
   */
  lemma FullCoordRotations(k: int)
    ensures RotationTable(CRem(-90, 360)).None?
    ensures RotationTable(CRem(-180, 360)).None?
    ensures RotationTable(CRem(-270, 360)).None?
    ensures k >= 0 ==> RotationTable(CRem(360 * k + 90, 360)) == Some(ROTATED_90)
  {
    if k >= 0 {
      assert (360 * k + 90) % 360 == 90;
    }
  }

  /** The quad of setRect before flips: (x, y), (x + w, y), (x, y + h), (x + w, y + h), normalised. */
  function RectTexCoords(x: real, y: real, w: real, h: real, texW: real, texH: real): (r: seq<real>)
    requires texW != 0.0 && texH != 0.0
    ensures |r| == 8
  {
    [x / texW, y / texH, (x + w) / texW, y / texH, x / texW, (y + h) / texH, (x + w) / texW, (y + h) / texH]
  }

  /**
   * setRect and an unrotated GLRect put the corners in opposite orders (image
   * top first versus bottom first): setRect with some flips equals GLRect's
   * texture coordinates with both flips toggled.
   */
  lemma {:induction false} SetRectIsHalfTurnOfGLRect(x: real, y: real, w: real, h: real, texW: real, texH: real,
                                                     flipH: bool, flipV: bool)
    requires texW != 0.0 && texH != 0.0
    ensures Flipped(RectTexCoords(x, y, w, h, texW, texH), flipH, flipV)
         == GLCoordsOf(x, y, w, h, 0.0, 1.0, !flipH, !flipV, texW, texH)
  {
    var cx := x + w / 2.0;
    var cy := y + h / 2.0;
    ZeroRotationIsIdentity(x, y + h, cx, cy);
    ZeroRotationIsIdentity(x + w, y + h, cx, cy);
    ZeroRotationIsIdentity(x, y, cx, cy);
    ZeroRotationIsIdentity(x + w, y, cx, cy);
    var g := [x / texW, (y + h) / texH, (x + w) / texW, (y + h) / texH, x / texW, y / texH, (x + w) / texW, y / texH];
    var t := RectTexCoords(x, y, w, h, texW, texH);
    assert t == SwapV(SwapH(g));
    FlipsAreInvolutions(g, true, true);
    assert GLCoordsOf(x, y, w, h, 0.0, 1.0, !flipH, !flipV, texW, texH) == Flipped(g, !flipH, !flipV);
  }

  /**
   * centerCrop's rectangle as written: in both branches of the aspect test the
   * size comes out as the view's, so the test does not change the result.
   */
  function CenterCropRect(texW: real, texH: real, viewW: real, viewH: real): (r: (real, real, real, real))
    requires viewW != 0.0 && viewH != 0.0
    ensures r.2 == viewW && r.3 == viewH
    ensures r.0 == (texW - viewW) / 2.0 && r.1 == (texH - viewH) / 2.0
  {
    var vratio := viewW / viewH;
    var w: real, h: real :=
      if texW * viewH > texH * viewW then viewH * vratio else viewW,
      if texW * viewH > texH * viewW then viewH else viewW / vratio;
    ((texW - w) / 2.0, (texH - h) / 2.0, w, h)
  }

  // ---------------------------------------------------------------------------
  // GLCoord
  // ---------------------------------------------------------------------------

  /** The subclass: TextureCoord or VertexCoord. They differ in their default quad and in setByGLRect. */
  datatype CoordKind = TextureKind | VertexKind

  /** getDefault(size) */
  function DefaultCoords(kind: CoordKind): (r: seq<real>)
    ensures |r| == COORD_SIZE
  {
    match kind
    case TextureKind => ROTATED_0
    case VertexKind => DEFAULT_VERTEX_COORDS
  }

  class GLCoord {
    const kind: CoordKind
    /** m_coords; null until the first set. */
    var coords: array?<real>
    /** m_cap */
    var cap: int
    /** m_size */
    var size: int

    /**
     * The capacity is the allocated length. While nothing is allocated the size
     * is 0, or 8 after setByGLRect of an empty rectangle copied the default size.
     */
    ghost predicate Valid()
      reads this
    {
      && (coords == null ==> cap == 0 && (size == 0 || size == COORD_SIZE))
      && (coords != null ==> cap == coords.Length && 0 <= size <= cap)
    }

    constructor (k: CoordKind)
      ensures Valid() && kind == k && coords == null && cap == 0 && size == 0
      ensures Get() == (DefaultCoords(k), COORD_SIZE)
    {
      kind := k;
      coords := null;
      cap := 0;
      size := 0;
    }

    /** get(size): the default quad until something is set, else the first m_size stored floats. */
    function Get(): (r: (seq<real>, int))
      reads this, coords
      requires Valid()
      ensures |r.0| == r.1
    {
      if coords == null then (DefaultCoords(kind), COORD_SIZE) else (coords[..size], size)
    }

    /**
     * obtainCoords(n): reallocates when nothing is allocated or the capacity is
     * below n, and keeps m_size; the caller then sets m_size.
     */
    method ObtainCoords(n: int) returns (d: array<real>)
      requires Valid() && n >= 0
      modifies this
      ensures d == coords && cap == d.Length && size == old(size)
      ensures old(coords) == null || old(cap) < n ==> fresh(d) && cap == n
      ensures old(coords) != null && old(cap) >= n ==> d == old(coords) && cap == old(cap)
      ensures cap >= n && cap >= old(cap)
    {
      if coords == null || cap < n {
        coords := new real[n];
        cap := n;
      }
      d := coords;
    }

    /** set(coord, n): copies n floats from `coord`, or the default quad when `coord` is null. */
    method Set(coord: Option<seq<real>>, n: int)
      requires Valid()
      requires coord.Some? ==> 0 <= n <= |coord.value|
      modifies this, coords
      ensures Valid()
      ensures coord.Some? ==> Get() == (coord.value[..n], n)
      ensures coord.None? ==> Get() == (DefaultCoords(kind), COORD_SIZE)
      ensures cap >= old(cap)
    {
      var src: seq<real>, m := if coord.Some? then coord.value else DefaultCoords(kind),
                                if coord.Some? then n else COORD_SIZE;
      var dst := ObtainCoords(m);
      forall i | 0 <= i < m {
        dst[i] := src[i];
      }
      size := m;
      assert dst[..m] == src[..m];
      assert coord.None? ==> src[..m] == src;
    }

    /**
     * setFullCoord(rot, flipH, flipV), a TextureCoord operation: the table for
     * rot % 360 (C++ remainder), then 1 - c on the flipped axis. A rotation other
     * than 0, 90, 180 or 270 is fatal after the buffer has been obtained.
     */
    method SetFullCoord(rot: int, flipH: bool, flipV: bool) returns (r: Outcome<seq<real>>)
      requires Valid() && kind == TextureKind
      modifies this, coords
      ensures Valid() && cap >= COORD_SIZE && coords != null
      ensures r.Ok? <==> RotationTable(CRem(rot, 360)).Some?
      ensures r.Ok? ==> r.value == FlipEntries(RotationTable(CRem(rot, 360)).value, flipH, flipV)
                        && Get() == (r.value, COORD_SIZE)
      ensures r.Raised? ==> size == old(size)
      ensures r.Raised? && old(coords) != null && old(cap) >= COORD_SIZE ==> Get() == old(Get())
    {
      var d := ObtainCoords(COORD_SIZE);
      var table := RotationTable(CRem(rot, 360));
      if table.None? {
        return Raised("setFullCoord() rotation value must be one of { 0, 90, 180, 270 }");
      }
      var t := table.value;
      forall i | 0 <= i < 8 {
        d[i] := t[i];
      }
      assert d[..8] == t;
      FlipEntriesInPlace(d, flipH, flipV);
      size := COORD_SIZE;
      r := Ok(d[..8]);
    }

    /**
     * setRect(x, y, w, h, texW, texH, flipH, flipV), a TextureCoord operation:
     * the rectangle's corners normalised to the texture, then the flips.
     */
    method SetRect(x: real, y: real, w: real, h: real, texW: real, texH: real, flipH: bool, flipV: bool)
      returns (r: seq<real>)
      requires Valid() && kind == TextureKind && texW != 0.0 && texH != 0.0
      modifies this, coords
      ensures Valid() && cap >= COORD_SIZE
      ensures r == Flipped(RectTexCoords(x, y, w, h, texW, texH), flipH, flipV)
      ensures Get() == (r, COORD_SIZE)
    {
      var d := ObtainCoords(COORD_SIZE);
      d[0] := x / texW;
      d[1] := y / texH;
      d[6] := (x + w) / texW;
      d[7] := (y + h) / texH;
      d[2] := d[6];
      d[3] := d[1];
      d[4] := d[0];
      d[5] := d[7];
      assert d[..8] == RectTexCoords(x, y, w, h, texW, texH);
      ApplyFlips(d, flipH, flipV);
      size := COORD_SIZE;
      r := d[..8];
    }

    /** centerCrop(texW, texH, viewW, viewH, flipH, flipV), a TextureCoord operation: setRect of CenterCropRect. */
    method CenterCrop(texW: real, texH: real, viewW: real, viewH: real, flipH: bool, flipV: bool)
      returns (r: seq<real>)
      requires Valid() && kind == TextureKind
      requires texW != 0.0 && texH != 0.0 && viewW != 0.0 && viewH != 0.0
      modifies this, coords
      ensures Valid()
      ensures r == Flipped(RectTexCoords((texW - viewW) / 2.0, (texH - viewH) / 2.0, viewW, viewH, texW, texH),
                           flipH, flipV)
      ensures Get() == (r, COORD_SIZE)
    {
      var rect := CenterCropRect(texW, texH, viewW, viewH);
      r := SetRect(rect.0, rect.1, rect.2, rect.3, texW, texH, flipH, flipV);
    }

    /**
     * setByGLRect(outW, outH, rect): for an empty rectangle, m_size becomes the
     * size get() reports and the stored quad is returned; otherwise the
     * rectangle's texture coordinates (TextureCoord) or vertex coordinates
     * (VertexCoord) are stored.
     */
    method SetByGLRect(outW: real, outH: real, rect: GLRect, sinTheta: real, cosTheta: real)
      returns (r: seq<real>)
      requires Valid() && outW != 0.0 && outH != 0.0
      requires rect.rotation == 0.0 ==> sinTheta == 0.0 && cosTheta == 1.0
      modifies this, coords
      ensures Valid()
      ensures rect.Empty() ==> r == old(Get()).0 && Get() == old(Get()) && coords == old(coords)
      ensures !rect.Empty() ==> Get() == (r, COORD_SIZE)
      ensures !rect.Empty() && kind == TextureKind ==> r == rect.Quad(outW, outH, sinTheta, cosTheta)
      ensures !rect.Empty() && kind == VertexKind ==> r == ToVertex(rect.Quad(outW, outH, sinTheta, cosTheta))
    {
      if rect.Empty() {
        var g := Get();
        size := g.1;
        return g.0;
      }
      var d := ObtainCoords(COORD_SIZE);
      if kind == TextureKind {
        rect.ToTextureCoords(outW, outH, sinTheta, cosTheta, d);
      } else {
        rect.ToVertexCoords(outW, outH, sinTheta, cosTheta, d);
      }
      size := COORD_SIZE;
      r := d[..8];
    }
  }
}
