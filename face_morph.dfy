/**
 * src/face/morph/FaceMorph.h: the geometry of the CPU face morph. Landmarks
 * keep a flat list of coordinates (x0, y0, x1, y1, ...); MorphImage pairs an
 * image with its landmarks; FaceMorph triangulates the average of two faces'
 * landmarks and, for a frame between the two images, interpolates the
 * landmarks and names the triangles to warp.
 *
 * The pixel work (warpAffine, fillConvexPoly, blendLinear, addWeighted) and
 * the Delaunay triangulation are library code and are not modelled: the
 * triangulation and cv::boundingRect are function parameters, images are
 * values, and a frame is described by what it is made of.
 */
module FaceMorph {
  import opened Log

  /** cv::Point2f */
  datatype Point2 = Point2(x: real, y: real)

  /** cv::Rect2f: origin and size. */
  datatype Rect2 = Rect2(x: real, y: real, width: real, height: real)

  /** cv::Mat as far as this code looks at it. */
  datatype Mat = Mat(rows: int, cols: int, pixels: seq<bv8>)

  /** The four image corners Landmarks::setup(w, h, points) appends, as coordinates. */
  function Corners(w: real, h: real): (c: seq<real>)
    ensures |c| == 8
  {
    [0.0, 0.0, w - 1.0, 0.0, 0.0, h - 1.0, w - 1.0, h - 1.0]
  }

  /** Point i of a flat coordinate list. */
  function PointAt(coords: seq<real>, i: nat): Point2
    requires 2 * i + 1 < |coords|
  {
    Point2(coords[2 * i], coords[2 * i + 1])
  }

  /** A point relative to a rectangle's origin. */
  function Relative(p: Point2, r: Rect2): (q: Point2)
    ensures q.x + r.x == p.x && q.y + r.y == p.y
  {
    Point2(p.x - r.x, p.y - r.y)
  }

  /**
   * Bordered landmarks with an even number of coordinates end in the four
   * image corners: top left, top right, bottom left, bottom right.
   */
  lemma CornersAreLastPoints(pts: seq<real>, w: real, h: real)
    requires |pts| % 2 == 0
    ensures var l := pts + Corners(w, h);
            var n := |l| / 2;
            && n == |pts| / 2 + 4
            && PointAt(l, n - 4) == Point2(0.0, 0.0)
            && PointAt(l, n - 3) == Point2(w - 1.0, 0.0)
            && PointAt(l, n - 2) == Point2(0.0, h - 1.0)
            && PointAt(l, n - 1) == Point2(w - 1.0, h - 1.0)
  {
    var l := pts + Corners(w, h);
    var n := |l| / 2;
    assert 2 * (n - 4) == |pts|;
  }

  /** Illustration of PointAt unfolded: each point of a flat list is the pair of coordinates at 2i and 2i + 1. */
  lemma PointsPairUp(coords: seq<real>, i: nat)
    requires i < |coords| / 2
    ensures 2 * i + 1 < |coords|
    ensures PointAt(coords, i).x == coords[2 * i] && PointAt(coords, i).y == coords[2 * i + 1]
  {
  }

  class Landmarks {
    /** m_points: x and y coordinates, alternating. */
    var points: seq<real>

    constructor ()
      ensures points == []
    {
      points := [];
    }

    /** push(v) */
    method Push(v: real)
      modifies this
      ensures points == old(points) + [v]
    {
      points := points + [v];
    }

    /** setup(points): a plain copy. */
    method SetupPlain(pts: seq<real>)
      modifies this
      ensures points == pts
    {
      points := pts;
    }

    /**
     * setup(w, h, points): an empty input leaves no landmarks at all;
     * otherwise the coordinates are copied one by one and the four image
     * corners appended.
     */
    method Setup(w: real, h: real, pts: seq<real>)
      modifies this
      ensures pts == [] ==> points == []
      ensures pts != [] ==> points == pts + Corners(w, h)
    {
      points := [];
      if pts == [] {
        return;
      }
      var i := 0;
      while i < |pts|
        invariant 0 <= i <= |pts| && points == pts[..i]
      {
        points := points + [pts[i]];
        i := i + 1;
      }
      points := points + [0.0, 0.0];
      points := points + [w - 1.0, 0.0];
      points := points + [0.0, h - 1.0];
      points := points + [w - 1.0, h - 1.0];
    }

    /** vSize() */
    function VSize(): nat
      reads this
    {
      |points|
    }

    /** v(i) */
    function V(i: nat): real
      reads this
      requires i < |points|
    {
      points[i]
    }

    /** pSize(): whole points; a trailing lone coordinate is not a point. */
    function PSize(): (n: nat)
      reads this
      ensures 2 * n <= VSize() < 2 * n + 2
    {
      |points| / 2
    }

    /** px(i) */
    function Px(i: nat): real
      reads this
      requires i < PSize()
    {
      points[2 * i]
    }

    /** py(i) */
    function Py(i: nat): real
      reads this
      requires i < PSize()
    {
      points[2 * i + 1]
    }

    /**
     * getTriangles(ai, bi, ci, boundRect, cropPoints): the rectangle is
     * cv::boundingRect of the three points; exactly three points are appended
     * to cropPoints, each vertex relative to the rectangle's origin.
     */
    method GetTriangles(ai: nat, bi: nat, ci: nat, boundingRect: seq<Point2> -> Rect2, crop: seq<Point2>)
      returns (bound: Rect2, crop': seq<Point2>)
      requires ai < PSize() && bi < PSize() && ci < PSize()
      ensures bound == boundingRect([PointAt(points, ai), PointAt(points, bi), PointAt(points, ci)])
      ensures |crop'| == |crop| + 3 && crop'[..|crop|] == crop
      ensures crop'[|crop|] == Relative(PointAt(points, ai), bound)
      ensures crop'[|crop| + 1] == Relative(PointAt(points, bi), bound)
      ensures crop'[|crop| + 2] == Relative(PointAt(points, ci), bound)
    {
      var srcPoints := [Point2(Px(ai), Py(ai)), Point2(Px(bi), Py(bi)), Point2(Px(ci), Py(ci))];
      bound := boundingRect(srcPoints);
      crop' := crop + [Point2(Px(ai) - bound.x, Py(ai) - bound.y)];
      crop' := crop' + [Point2(Px(bi) - bound.x, Py(bi) - bound.y)];
      crop' := crop' + [Point2(Px(ci) - bound.x, Py(ci) - bound.y)];
    }
  }

  /** What morphTriangle does for one triangle: the rectangles and crop points of both sides. */
  datatype TriangleStep = TriangleStep(
    a: nat, b: nat, c: nat,
    srcRect: Rect2, srcCrop: seq<Point2>,
    dstRect: Rect2, dstCrop: seq<Point2>)

  /** Every index of the first |t| / 3 whole triangles names a point of `coords`. */
  predicate IndexesPoints(t: seq<nat>, coords: seq<real>)
  {
    forall j :: 0 <= j < |t| ==> t[j] < |coords| / 2
  }

  class MorphImage {
    const landmarks: Landmarks
    var img: Mat

    constructor ()
      ensures fresh(landmarks) && landmarks.points == []
    {
      landmarks := new Landmarks();
      img := Mat(0, 0, []);
    }

    /**
     * setup(src, points, addBoarderPoint): keeps the image; the landmarks get
     * the image corners (cols - 1, rows - 1) when asked, or a plain copy.
     */
    method Setup(src: Mat, pts: seq<real>, addBorder: bool)
      modifies this, landmarks
      ensures img == src
      ensures addBorder && pts == [] ==> landmarks.points == []
      ensures addBorder && pts != [] ==> landmarks.points == pts + Corners(src.cols as real, src.rows as real)
      ensures !addBorder ==> landmarks.points == pts
    {
      img := src;
      if addBorder {
        landmarks.Setup(img.cols as real, img.rows as real, pts);
      } else {
        landmarks.SetupPlain(pts);
      }
    }

    /** noFace(): no landmarks. */
    predicate NoFace()
      reads this, landmarks
    {
      landmarks.VSize() == 0
    }

    /**
     * morphTriangles(triangles, dst): one step per whole triangle, in order;
     * triangle i is made of entries 3i, 3i + 1 and 3i + 2. A trailing partial
     * triangle is ignored.
     */
    method MorphTriangles(triangles: seq<nat>, dst: Landmarks, boundingRect: seq<Point2> -> Rect2)
      returns (steps: seq<TriangleStep>)
      requires IndexesPoints(triangles, landmarks.points) && IndexesPoints(triangles, dst.points)
      ensures |steps| == |triangles| / 3
      ensures forall i :: 0 <= i < |steps| ==>
                && steps[i].a == triangles[3 * i]
                && steps[i].b == triangles[3 * i + 1]
                && steps[i].c == triangles[3 * i + 2]
                && steps[i] == StepOf(steps[i].a, steps[i].b, steps[i].c, landmarks.points, dst.points, boundingRect)
    {
      steps := [];
      var triSize := |triangles| / 3;
      var i := 0;
      while i < triSize
        invariant 0 <= i <= triSize && |steps| == i
        invariant forall k :: 0 <= k < i ==>
                    && steps[k].a == triangles[3 * k]
                    && steps[k].b == triangles[3 * k + 1]
                    && steps[k].c == triangles[3 * k + 2]
                    && steps[k] == StepOf(steps[k].a, steps[k].b, steps[k].c, landmarks.points, dst.points, boundingRect)
      {
        var s := MorphTriangle(triangles[i * 3], triangles[i * 3 + 1], triangles[i * 3 + 2], dst, boundingRect);
        steps := steps + [s];
        i := i + 1;
      }
    }

    /** morphTriangle(ai, bi, ci, dst): the geometry of both sides; the warp itself is left out. */
    method MorphTriangle(ai: nat, bi: nat, ci: nat, dst: Landmarks, boundingRect: seq<Point2> -> Rect2)
      returns (s: TriangleStep)
      requires ai < landmarks.PSize() && bi < landmarks.PSize() && ci < landmarks.PSize()
      requires ai < dst.PSize() && bi < dst.PSize() && ci < dst.PSize()
      ensures s == StepOf(ai, bi, ci, landmarks.points, dst.points, boundingRect)
    {
      var srcRect, srcCrop := landmarks.GetTriangles(ai, bi, ci, boundingRect, []);
      var dstRect, dstCrop := dst.GetTriangles(ai, bi, ci, boundingRect, []);
      s := TriangleStep(ai, bi, ci, srcRect, srcCrop, dstRect, dstCrop);
    }
  }

  /** The crop points of one side: each vertex relative to the bounding rectangle of all three. */
  function CropOf(coords: seq<real>, a: nat, b: nat, c: nat, boundingRect: seq<Point2> -> Rect2): (r: (Rect2, seq<Point2>))
    requires a < |coords| / 2 && b < |coords| / 2 && c < |coords| / 2
    ensures |r.1| == 3
  {
    var pa, pb, pc := PointAt(coords, a), PointAt(coords, b), PointAt(coords, c);
    var bound := boundingRect([pa, pb, pc]);
    (bound, [Relative(pa, bound), Relative(pb, bound), Relative(pc, bound)])
  }

  /** The step for triangle (a, b, c) between two sets of landmarks. */
  function StepOf(a: nat, b: nat, c: nat, src: seq<real>, dst: seq<real>, boundingRect: seq<Point2> -> Rect2): TriangleStep
    requires a < |src| / 2 && b < |src| / 2 && c < |src| / 2
    requires a < |dst| / 2 && b < |dst| / 2 && c < |dst| / 2
  {
    var s := CropOf(src, a, b, c, boundingRect);
    var d := CropOf(dst, a, b, c, boundingRect);
    TriangleStep(a, b, c, s.0, s.1, d.0, d.1)
  }

  /** A frame of the morph, described by what it is made of. */
  datatype Frame =
    | Source(img: Mat)
    | Destination(img: Mat)
    /** addWeighted(src, 1 - alpha, dst, alpha) */
    | Blend(src: Mat, dst: Mat, alpha: real)
    /** Both images warped onto the interpolated landmarks, then blended with the same weights. */
    | Morphed(alpha: real, weights: seq<real>, srcSteps: seq<TriangleStep>, dstSteps: seq<TriangleStep>)

  /** The blend weight of getFrameAt(index, sumFrames). */
  function Alpha(index: int, sumFrames: int): real
  {
    if sumFrames < 1 then 0.0 else (index + 1) as real / sumFrames as real
  }

  /** Frames that are neither the first nor the last blend with a weight strictly between 0 and 1. */
  lemma AlphaInsideForMiddleFrames(index: int, sumFrames: int)
    requires 0 < index < sumFrames - 1
    ensures 0.0 < Alpha(index, sumFrames) < 1.0
  {
    var n := sumFrames as real;
    assert (index + 1) as real < n;
    assert (index + 1) as real / n < n / n;
  }

  /** The interpolated landmark value: 1 - alpha of a plus alpha of b. */
  function Mix(alpha: real, a: real, b: real): real
  {
    (1.0 - alpha) * a + alpha * b
  }

  /** Weight 0 gives the source value and weight 1 the destination value. */
  lemma MixEnds(a: real, b: real)
    ensures Mix(0.0, a, b) == a && Mix(1.0, a, b) == b
  {
  }

  /** With a weight in [0, 1] the interpolated value lies between the two values. */
  lemma MixBetween(alpha: real, a: real, b: real)
    requires 0.0 <= alpha <= 1.0
    ensures a <= b ==> a <= Mix(alpha, a, b) <= b
    ensures b <= a ==> b <= Mix(alpha, a, b) <= a
  {
    assert Mix(alpha, a, b) == a + alpha * (b - a);
    if a <= b {
      FractionOf(alpha, b - a);
    } else {
      FractionOf(alpha, a - b);
      assert alpha * (b - a) == -(alpha * (a - b));
    }
  }

  /** A fraction in [0, 1] of a non-negative amount lies between 0 and the amount. */
  lemma FractionOf(alpha: real, x: real)
    requires 0.0 <= alpha <= 1.0 && 0.0 <= x
    ensures 0.0 <= alpha * x <= x
  {
    assert (1.0 - alpha) * x >= 0.0;
  }

  /** The pointwise average of two coordinate lists, over the first one's length. */
  function Midpoints(a: seq<real>, b: seq<real>): (r: seq<real>)
    requires |a| <= |b|
    ensures |r| == |a|
  {
    seq(|a|, i requires 0 <= i < |a| => (a[i] + b[i]) / 2.0)
  }

  /** The average the triangulation runs on is the halfway interpolation of the two faces. */
  lemma MidpointsAreHalfway(a: seq<real>, b: seq<real>, i: nat)
    requires |a| <= |b| && i < |a|
    ensures Midpoints(a, b)[i] == Mix(0.5, a[i], b[i])
    ensures a[i] <= b[i] ==> a[i] <= Midpoints(a, b)[i] <= b[i]
  {
    MixBetween(0.5, a[i], b[i]);
  }

  class FaceMorph {
    const src: MorphImage
    const dst: MorphImage
    /** m_triangles_indexes */
    var triangles: seq<nat>

    /**
     * Triangles exist only for landmarks of equal length, and every index
     * names a point of them.
     */
    ghost predicate Valid()
      reads this, src, dst, src.landmarks, dst.landmarks
    {
      && src != dst && src.landmarks != dst.landmarks
      && (triangles != [] ==>
            && |src.landmarks.points| == |dst.landmarks.points|
            && IndexesPoints(triangles, src.landmarks.points))
    }

    constructor ()
      ensures Valid() && fresh(src) && fresh(dst) && fresh(src.landmarks) && fresh(dst.landmarks)
      ensures triangles == []
    {
      src := new MorphImage();
      dst := new MorphImage();
      triangles := [];
    }

    /**
     * setup(src, srcFacePoints, dst, dstFacePoints): images of different sizes
     * are an error, before anything changes. Otherwise both images take their
     * bordered landmarks; when the two point lists have the same length, the
     * triangles are the triangulation of the landmarks' pointwise average,
     * else there are none.
     */
    method Setup(srcImg: Mat, srcPts: seq<real>, dstImg: Mat, dstPts: seq<real>, triangulate: seq<real> -> seq<nat>)
      returns (r: Outcome<()>)
      requires Valid()
      requires forall pts: seq<real>, j :: 0 <= j < |triangulate(pts)| ==> triangulate(pts)[j] < |pts| / 2
      modifies this, src, dst, src.landmarks, dst.landmarks
      ensures Valid()
      ensures r.Raised? <==> srcImg.cols != dstImg.cols || srcImg.rows != dstImg.rows
      ensures r.Raised? ==> unchanged(this, src, dst, src.landmarks, dst.landmarks)
      ensures r.Ok? ==>
                && src.img == srcImg && dst.img == dstImg
                && src.landmarks.points == (if srcPts == [] then [] else srcPts + Corners(srcImg.cols as real, srcImg.rows as real))
                && dst.landmarks.points == (if dstPts == [] then [] else dstPts + Corners(dstImg.cols as real, dstImg.rows as real))
      ensures r.Ok? && |srcPts| != |dstPts| ==> triangles == []
      ensures r.Ok? && |srcPts| == |dstPts| ==>
                triangles == triangulate(Midpoints(src.landmarks.points, dst.landmarks.points))
    {
      if srcImg.cols != dstImg.cols || srcImg.rows != dstImg.rows {
        return Raised("src size != dst size");
      }
      src.Setup(srcImg, srcPts, true);
      dst.Setup(dstImg, dstPts, true);
      if |srcPts| == |dstPts| {
        var average := Average(src.landmarks, dst.landmarks);
        triangles := triangulate(average);
      } else {
        triangles := [];
      }
      r := Ok(());
    }

    /**
     * getFrameAt(index, sumFrames): the source image for index <= 0, else the
     * destination image for index >= sumFrames - 1. Between them, a plain
     * blend when there are no triangles or either face is missing; otherwise
     * the landmarks are interpolated with the blend weight and both images
     * warped onto them, triangle by triangle.
     */
    method GetFrameAt(index: int, sumFrames: int, boundingRect: seq<Point2> -> Rect2) returns (f: Frame)
      requires Valid()
      ensures index <= 0 ==> f == Source(src.img)
      ensures 0 < index && index >= sumFrames - 1 ==> f == Destination(dst.img)
      ensures 0 < index < sumFrames - 1 && (triangles == [] || src.NoFace() || dst.NoFace()) ==>
                f == Blend(src.img, dst.img, Alpha(index, sumFrames))
      ensures 0 < index < sumFrames - 1 && !(triangles == [] || src.NoFace() || dst.NoFace()) ==>
                && f.Morphed? && f.alpha == Alpha(index, sumFrames)
                && |f.weights| == |src.landmarks.points|
                && (forall i :: 0 <= i < |f.weights| ==>
                      f.weights[i] == Mix(f.alpha, src.landmarks.points[i], dst.landmarks.points[i]))
                && |f.srcSteps| == |f.dstSteps| == |triangles| / 3
                && (forall i :: 0 <= i < |f.srcSteps| ==>
                      && f.srcSteps[i] == StepOf(triangles[3 * i], triangles[3 * i + 1], triangles[3 * i + 2],
                                                 src.landmarks.points, f.weights, boundingRect)
                      && f.dstSteps[i] == StepOf(triangles[3 * i], triangles[3 * i + 1], triangles[3 * i + 2],
                                                 dst.landmarks.points, f.weights, boundingRect))
    {
      var alpha := if sumFrames < 1 then 0.0 else (index + 1) as real / sumFrames as real;
      if index <= 0 {
        return Source(src.img);
      }
      if index >= sumFrames - 1 {
        return Destination(dst.img);
      }
      if triangles == [] || src.NoFace() || dst.NoFace() {
        return Blend(src.img, dst.img, alpha);
      }
      var weightLandmarks := Interpolate(src.landmarks, dst.landmarks, alpha);
      var srcSteps := src.MorphTriangles(triangles, weightLandmarks, boundingRect);
      var dstSteps := dst.MorphTriangles(triangles, weightLandmarks, boundingRect);
      f := Morphed(alpha, weightLandmarks.points, srcSteps, dstSteps);
    }
  }

  /** The averaging loop of FaceMorph::setup, over the first landmarks' length. */
  method Average(a: Landmarks, b: Landmarks) returns (average: seq<real>)
    requires |a.points| <= |b.points|
    ensures average == Midpoints(a.points, b.points)
  {
    average := [];
    var i := 0;
    var size := a.VSize();
    while i < size
      invariant 0 <= i <= size && |average| == i
      invariant forall k :: 0 <= k < i ==> average[k] == (a.points[k] + b.points[k]) / 2.0
    {
      average := average + [(a.V(i) + b.V(i)) / 2.0];
      i := i + 1;
    }
  }

  /** The weightLandmarks loop of getFrameAt: a new Landmarks pushed one mixed value at a time. */
  method Interpolate(a: Landmarks, b: Landmarks, alpha: real) returns (w: Landmarks)
    requires |a.points| <= |b.points|
    ensures fresh(w)
    ensures |w.points| == |a.points|
    ensures forall i :: 0 <= i < |w.points| ==> w.points[i] == Mix(alpha, a.points[i], b.points[i])
  {
    w := new Landmarks();
    var i := 0;
    var size := a.VSize();
    while i < size
      invariant 0 <= i <= size && |w.points| == i
      invariant forall k :: 0 <= k < i ==> w.points[k] == Mix(alpha, a.points[k], b.points[k])
    {
      var n := (1.0 - alpha) * a.V(i) + alpha * b.V(i);
      w.Push(n);
      i := i + 1;
    }
  }
}
