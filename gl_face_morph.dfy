/**
 * src/opengl/GLFaceMorph.h: the GPU face morph's geometry. Face points are
 * stored normalised to texture coordinates, optionally with the unit
 * square's corners appended; triangulating their average gives, for each
 * triangle vertex, a source and a destination texture coordinate; a render
 * at some percent interpolates the two and maps the result to clip space.
 *
 * All buffers are Array objects of 4-byte floats, modelled with reals. The
 * images, the morph filter and its shaders are not modelled; a render is
 * described by the coordinates it hands to the filter.
 */
module GLMorph {
  import opened ArrayBuffer
  import opened FaceMorph

  /** sizeof(float) */
  const FLOAT_SIZE: nat := 4

  /** The board setSrcFacePoints appends: the corners (0, 0), (1, 0), (0, 1), (1, 1). */
  function Board(): (b: seq<real>)
    ensures |b| == 8
  {
    [0.0, 0.0, 1.0, 0.0, 0.0, 1.0, 1.0, 1.0]
  }

  /**
   * The whole points of `points` as texture coordinates: x divided by the
   * width, y by the height. A trailing lone coordinate is dropped.
   */
  function Scaled(points: seq<real>, width: real, height: real): (r: seq<real>)
    requires |points| >= 2 ==> width != 0.0 && height != 0.0
    ensures |r| == 2 * (|points| / 2)
  {
    seq(2 * (|points| / 2), k requires 0 <= k < 2 * (|points| / 2) =>
      points[k] / (if k % 2 == 0 then width else height))
  }

  /** Scaling back by the image size gives the original coordinates. */
  lemma ScaledRoundTrip(points: seq<real>, width: real, height: real)
    requires width != 0.0 && height != 0.0
    ensures forall k :: 0 <= k < |Scaled(points, width, height)| ==>
              Scaled(points, width, height)[k] * (if k % 2 == 0 then width else height) == points[k]
  {
  }

  /** Points inside the image become texture coordinates in [0, 1]. */
  lemma ScaledInUnitSquare(points: seq<real>, width: real, height: real)
    requires width > 0.0 && height > 0.0
    requires forall k :: 0 <= k < |points| ==> 0.0 <= points[k] <= (if k % 2 == 0 then width else height)
    ensures forall k :: 0 <= k < |Scaled(points, width, height)| ==> 0.0 <= Scaled(points, width, height)[k] <= 1.0
  {
    var r := Scaled(points, width, height);
    forall k | 0 <= k < |r|
      ensures 0.0 <= r[k] <= 1.0
    {
      var d := if k % 2 == 0 then width else height;
      assert r[k] == points[k] / d;
      assert points[k] / d <= d / d;
    }
  }

  /**
   * The coordinates of the triangles' vertices: vertex k of `t` is face point
   * t[k], whose x and y land at 2k and 2k + 1.
   */
  function Gather(face: seq<real>, t: seq<nat>): (r: seq<real>)
    requires forall j :: 0 <= j < |t| ==> t[j] < |face| / 2
    ensures |r| == 2 * |t|
  {
    seq(2 * |t|, k requires 0 <= k < 2 * |t| => face[2 * t[k / 2] + k % 2])
  }

  /** Vertex j of the gathered coordinates is the face point the triangulation named. */
  lemma GatherPoints(face: seq<real>, t: seq<nat>, j: nat)
    requires forall j :: 0 <= j < |t| ==> t[j] < |face| / 2
    requires j < |t|
    ensures PointAt(Gather(face, t), j) == PointAt(face, t[j])
  {
    var r := Gather(face, t);
    assert (2 * j) / 2 == j && (2 * j + 1) / 2 == j;
    assert r[2 * j] == face[2 * t[j]];
    assert r[2 * j + 1] == face[2 * t[j] + 1];
  }

  /** The vertex coordinates of a render: the interpolated texture coordinate mapped to [-1, 1]. */
  function Vertices(percent: real, src: seq<real>, dst: seq<real>): (r: seq<real>)
    requires |src| <= |dst|
    ensures |r| == |src|
  {
    seq(|src|, i requires 0 <= i < |src| => Mix(percent, src[i], dst[i]) * 2.0 - 1.0)
  }

  /** Texture coordinates in [0, 1] and a percent in [0, 1] give clip coordinates in [-1, 1]. */
  lemma VerticesInClipSpace(percent: real, src: seq<real>, dst: seq<real>)
    requires |src| <= |dst| && 0.0 <= percent <= 1.0
    requires forall i :: 0 <= i < |src| ==> 0.0 <= src[i] <= 1.0 && 0.0 <= dst[i] <= 1.0
    ensures forall i :: 0 <= i < |src| ==> -1.0 <= Vertices(percent, src, dst)[i] <= 1.0
  {
    forall i | 0 <= i < |src|
      ensures -1.0 <= Vertices(percent, src, dst)[i] <= 1.0
    {
      MixBetween(percent, src[i], dst[i]);
    }
  }

  /** At 0 percent the mesh is the source face, at 100 percent the destination face. */
  lemma VerticesEnds(src: seq<real>, dst: seq<real>, i: nat)
    requires |src| <= |dst| && i < |src|
    ensures Vertices(0.0, src, dst)[i] == src[i] * 2.0 - 1.0
    ensures Vertices(1.0, src, dst)[i] == dst[i] * 2.0 - 1.0
  {
    MixEnds(src[i], dst[i]);
  }

  /** What render() hands to the morph filter. */
  datatype MorphInput =
    /** No triangles: the filter blends the two images. */
    | ImageBlend(alpha: real)
    /** A triangle mesh: vertex coordinates and both images' texture coordinates. */
    | Mesh(alpha: real, vertexCoord: seq<real>, srcTexCoord: seq<real>, dstTexCoord: seq<real>)

  /** The scaling loop of setSrcFacePoints: whole points only, x by the width and y by the height. */
  method ScaleInto(d: array<real>, points: seq<real>, width: real, height: real) returns (i: nat)
    requires |points| <= d.Length
    requires |points| >= 2 ==> width != 0.0 && height != 0.0
    modifies d
    ensures i == 2 * (|points| / 2)
    ensures d[..i] == Scaled(points, width, height)
  {
    i := 0;
    var size := |points|;
    ghost var pairs := 0;
    while i <= size - 2
      invariant i == 2 * pairs && 0 <= pairs <= size / 2
      invariant d[..i] == Scaled(points[..i], width, height)
    {
      ScaledStep(points, width, height, pairs);
      WritePoint(d, i, points[i] / width, points[i + 1] / height);
      i := i + 2;
      pairs := pairs + 1;
    }
    assert points[..i] == points[..2 * (|points| / 2)];
    ScaledTrailing(points, width, height);
  }

  /** d[i] = x; d[i+1] = y; the coordinates before them are kept. */
  method WritePoint(d: array<real>, i: nat, x: real, y: real)
    requires i + 1 < d.Length
    modifies d
    ensures d[..i + 2] == old(d[..i]) + [x, y]
  {
    d[i] := x;
    d[i + 1] := y;
  }

  /** Scaling one more whole point appends its two scaled coordinates. */
  lemma ScaledStep(points: seq<real>, width: real, height: real, j: nat)
    requires 2 * j + 1 < |points| && width != 0.0 && height != 0.0
    ensures Scaled(points[..2 * j + 2], width, height)
         == Scaled(points[..2 * j], width, height) + [points[2 * j] / width, points[2 * j + 1] / height]
  {
    var a, b := Scaled(points[..2 * j + 2], width, height), Scaled(points[..2 * j], width, height);
    assert |a| == 2 * j + 2 && |b| == 2 * j;
    forall k | 0 <= k < 2 * j
      ensures a[k] == b[k]
    {
    }
    assert (2 * j) % 2 == 0 && (2 * j + 1) % 2 == 1;
  }

  /** A trailing lone coordinate does not change the scaled points. */
  lemma ScaledTrailing(points: seq<real>, width: real, height: real)
    requires |points| >= 2 ==> width != 0.0 && height != 0.0
    ensures Scaled(points[..2 * (|points| / 2)], width, height) == Scaled(points, width, height)
  {
  }

  /** The board writes of setSrcFacePoints: eight floats from `i` on, everything before kept. */
  method WriteBoard(d: array<real>, i: nat)
    requires i + 8 <= d.Length
    modifies d
    ensures d[..i + 8] == old(d[..i]) + Board()
  {
    ghost var before := d[..i];
    d[i], d[i + 1], d[i + 2], d[i + 3] := 0.0, 0.0, 1.0, 0.0;
    d[i + 4], d[i + 5], d[i + 6], d[i + 7] := 0.0, 1.0, 1.0, 1.0;
    assert d[..i] == before;
    assert d[i..i + 8] == Board();
    assert d[..i + 8] == d[..i] + d[i..i + 8];
  }

  /**
   * setSrcFacePoints / setDstFacePoints: obtains room for |points| + 12
   * floats, writes the scaled whole points and, when asked, the board after
   * them, and returns how many floats it wrote.
   */
  method FillFacePoints(buf: Array<real>, points: seq<real>, width: int, height: int, addBoard: bool)
    returns (count: nat)
    requires buf.Valid()
    requires |points| >= 2 ==> width != 0 && height != 0
    modifies buf.Repr
    ensures buf.Valid() && fresh(buf.Repr - old(buf.Repr))
    ensures count <= |buf.Contents()|
    ensures buf.Contents()[..count] == Scaled(points, width as real, height as real) + (if addBoard then Board() else [])
  {
    var d := buf.Obtain(|points| + 12, false);
    assert d != null && |points| + 12 <= d.Length by {
      PositiveProduct(|points| + 12, buf.unit);
    }
    var i := ScaleInto(d, points, width as real, height as real);
    if addBoard {
      WriteBoard(d, i);
      i := i + 8;
    }
    count := i;
  }

  /**
   * The copy loop of generateTriangles: vertex k of `t` takes the
   * coordinates of face point t[k] from both face buffers, at 2k and 2k + 1.
   */
  method GatherInto(src: array<real>, dst: array<real>, srcBuf: Array<real>, dstBuf: Array<real>,
                    n: nat, t: seq<nat>)
    requires srcBuf.Valid() && dstBuf.Valid()
    requires n <= |srcBuf.Contents()| && n <= |dstBuf.Contents()|
    requires forall j :: 0 <= j < |t| ==> t[j] < n / 2
    requires src != dst && 2 * |t| <= src.Length && 2 * |t| <= dst.Length
    requires src !in srcBuf.Repr && src !in dstBuf.Repr && dst !in srcBuf.Repr && dst !in dstBuf.Repr
    modifies src, dst
    ensures src[..2 * |t|] == Gather(srcBuf.Contents()[..n], t)
    ensures dst[..2 * |t|] == Gather(dstBuf.Contents()[..n], t)
  {
    ghost var srcFace, dstFace := srcBuf.Contents()[..n], dstBuf.Contents()[..n];
    var i := 0;
    while i < |t|
      invariant 0 <= i <= |t|
      invariant src[..2 * i] == Gather(srcFace, t)[..2 * i] && dst[..2 * i] == Gather(dstFace, t)[..2 * i]
      invariant srcBuf.Contents()[..n] == srcFace && dstBuf.Contents()[..n] == dstFace
    {
      CopyVertex(src, dst, srcBuf, dstBuf, n, t, i, srcFace, dstFace);
      i := i + 1;
    }
  }

  /** One pass of the copy loop: vertex i's point read from both face buffers and written at 2i and 2i + 1. */
  method CopyVertex(src: array<real>, dst: array<real>, srcBuf: Array<real>, dstBuf: Array<real>,
                    n: nat, t: seq<nat>, i: nat, ghost srcFace: seq<real>, ghost dstFace: seq<real>)
    requires srcBuf.Valid() && dstBuf.Valid()
    requires n <= |srcBuf.Contents()| && n <= |dstBuf.Contents()|
    requires srcFace == srcBuf.Contents()[..n] && dstFace == dstBuf.Contents()[..n]
    requires forall j :: 0 <= j < |t| ==> t[j] < n / 2
    requires i < |t| && src != dst && 2 * |t| <= src.Length && 2 * |t| <= dst.Length
    requires src !in srcBuf.Repr && src !in dstBuf.Repr && dst !in srcBuf.Repr && dst !in dstBuf.Repr
    requires src[..2 * i] == Gather(srcFace, t)[..2 * i] && dst[..2 * i] == Gather(dstFace, t)[..2 * i]
    modifies src, dst
    ensures src[..2 * i + 2] == Gather(srcFace, t)[..2 * i + 2] && dst[..2 * i + 2] == Gather(dstFace, t)[..2 * i + 2]
  {
    var sx, sy := PointOf(srcBuf, n, t[i], srcFace);
    var dx, dy := PointOf(dstBuf, n, t[i], dstFace);
    GatherPoints(srcFace, t, i);
    GatherPoints(dstFace, t, i);
    PairStep(Gather(srcFace, t), i, sx, sy);
    PairStep(Gather(dstFace, t), i, dx, dy);
    WritePoint(src, 2 * i, sx, sy);
    WritePoint(dst, 2 * i, dx, dy);
  }

  /** The two at<float>() reads of one face point. */
  method PointOf(buf: Array<real>, n: nat, p: nat, ghost face: seq<real>) returns (x: real, y: real)
    requires buf.Valid() && n <= |buf.Contents()| && p < n / 2 && face == buf.Contents()[..n]
    ensures PointAt(face, p) == Point2(x, y)
  {
    x := buf.At(2 * p).value;
    y := buf.At(2 * p + 1).value;
  }

  /** A prefix of whole pairs grows by the next pair. */
  lemma PairStep(g: seq<real>, i: nat, x: real, y: real)
    requires 2 * i + 1 < |g| && PointAt(g, i) == Point2(x, y)
    ensures g[..2 * i + 2] == g[..2 * i] + [x, y]
  {
  }

  /** The weight loop of render: each vertex's interpolated coordinate, mapped to [-1, 1]. */
  method MixInto(weight: array<real>, srcBuf: Array<real>, dstBuf: Array<real>, n: nat, percent: real)
    requires srcBuf.Valid() && dstBuf.Valid()
    requires n <= |srcBuf.Contents()| && n <= |dstBuf.Contents()| && n <= weight.Length
    requires weight !in srcBuf.Repr && weight !in dstBuf.Repr
    modifies weight
    ensures weight[..n] == Vertices(percent, srcBuf.Contents()[..n], dstBuf.Contents()[..n])
  {
    ghost var srcTex, dstTex := srcBuf.Contents()[..n], dstBuf.Contents()[..n];
    var i := 0;
    while i < n
      invariant 0 <= i <= n
      invariant forall k :: 0 <= k < i ==> weight[k] == Mix(percent, srcTex[k], dstTex[k]) * 2.0 - 1.0
    {
      var a := srcBuf.At(i).value;
      var b := dstBuf.At(i).value;
      weight[i] := Mix(percent, a, b) * 2.0 - 1.0;
      i := i + 1;
    }
  }

  /** How many floats a buffer has room for. */
  function Room(a: Array<real>): (n: nat)
    reads a
  {
    if a.data == null then 0 else a.data.Length
  }

  class GLFaceMorph {
    /** m_src_face_points, m_dst_face_points */
    const srcFacePoints: Array<real>
    const dstFacePoints: Array<real>
    /** m_src_triangle_points, m_dst_triangle_points */
    const srcTrianglePoints: Array<real>
    const dstTrianglePoints: Array<real>
    /** m_percent_triangle_points */
    const percentTrianglePoints: Array<real>
    /** m_src_pcount, m_dst_pcount, m_triangle_pcount: floats, not points. */
    var srcPcount: nat
    var dstPcount: nat
    var trianglePcount: nat

    /** Each buffer is a valid float array owning its own storage, and every count fits its buffer. */
    ghost predicate Valid()
      reads this, srcFacePoints, dstFacePoints, srcTrianglePoints, dstTrianglePoints, percentTrianglePoints
    {
      && srcFacePoints.Valid() && dstFacePoints.Valid()
      && srcTrianglePoints.Valid() && dstTrianglePoints.Valid() && percentTrianglePoints.Valid()
      && srcFacePoints.unit == dstFacePoints.unit == FLOAT_SIZE
      && srcTrianglePoints.unit == dstTrianglePoints.unit == percentTrianglePoints.unit == FLOAT_SIZE
      && srcFacePoints.Repr !! dstFacePoints.Repr
      && srcFacePoints.Repr !! srcTrianglePoints.Repr && srcFacePoints.Repr !! dstTrianglePoints.Repr
      && srcFacePoints.Repr !! percentTrianglePoints.Repr
      && dstFacePoints.Repr !! srcTrianglePoints.Repr && dstFacePoints.Repr !! dstTrianglePoints.Repr
      && dstFacePoints.Repr !! percentTrianglePoints.Repr
      && srcTrianglePoints.Repr !! dstTrianglePoints.Repr && srcTrianglePoints.Repr !! percentTrianglePoints.Repr
      && dstTrianglePoints.Repr !! percentTrianglePoints.Repr
      && srcPcount <= Room(srcFacePoints) && dstPcount <= Room(dstFacePoints)
      && trianglePcount <= Room(srcTrianglePoints) && trianglePcount <= Room(dstTrianglePoints)
    }

    /** The source face's texture coordinates. */
    ghost function SrcFace(): seq<real>
      reads this, srcFacePoints, srcFacePoints.Repr
      requires srcFacePoints.Valid() && srcPcount <= Room(srcFacePoints)
    {
      srcFacePoints.Contents()[..srcPcount]
    }

    /** The destination face's texture coordinates. */
    ghost function DstFace(): seq<real>
      reads this, dstFacePoints, dstFacePoints.Repr
      requires dstFacePoints.Valid() && dstPcount <= Room(dstFacePoints)
    {
      dstFacePoints.Contents()[..dstPcount]
    }

    /** The source texture coordinate of every triangle vertex. */
    ghost function SrcTriangles(): seq<real>
      reads this, srcTrianglePoints, srcTrianglePoints.Repr
      requires srcTrianglePoints.Valid() && trianglePcount <= Room(srcTrianglePoints)
    {
      srcTrianglePoints.Contents()[..trianglePcount]
    }

    /** The destination texture coordinate of every triangle vertex. */
    ghost function DstTriangles(): seq<real>
      reads this, dstTrianglePoints, dstTrianglePoints.Repr
      requires dstTrianglePoints.Valid() && trianglePcount <= Room(dstTrianglePoints)
    {
      dstTrianglePoints.Contents()[..trianglePcount]
    }

    constructor ()
      ensures Valid()
      ensures srcPcount == 0 && dstPcount == 0 && trianglePcount == 0
      ensures fresh(srcFacePoints.Repr) && fresh(dstFacePoints.Repr)
      ensures fresh(srcTrianglePoints.Repr) && fresh(dstTrianglePoints.Repr) && fresh(percentTrianglePoints.Repr)
    {
      srcFacePoints := new Array(FLOAT_SIZE);
      dstFacePoints := new Array(FLOAT_SIZE);
      srcTrianglePoints := new Array(FLOAT_SIZE);
      dstTrianglePoints := new Array(FLOAT_SIZE);
      percentTrianglePoints := new Array(FLOAT_SIZE);
      srcPcount, dstPcount, trianglePcount := 0, 0, 0;
    }

    /** setSrcFacePoints(points, width, height, addBoard): the source face only. */
    method SetSrcFacePoints(points: seq<real>, width: int, height: int, addBoard: bool)
      requires Valid()
      requires |points| >= 2 ==> width != 0 && height != 0
      modifies this, srcFacePoints.Repr
      ensures Valid() && fresh(srcFacePoints.Repr - old(srcFacePoints.Repr))
      ensures SrcFace() == Scaled(points, width as real, height as real) + (if addBoard then Board() else [])
      ensures dstPcount == old(dstPcount) && trianglePcount == old(trianglePcount)
      ensures DstFace() == old(DstFace())
      ensures SrcTriangles() == old(SrcTriangles()) && DstTriangles() == old(DstTriangles())
    {
      var count := FillFacePoints(srcFacePoints, points, width, height, addBoard);
      srcPcount := count;
    }

    /** setDstFacePoints(points, width, height, addBoard): the destination face only. */
    method SetDstFacePoints(points: seq<real>, width: int, height: int, addBoard: bool)
      requires Valid()
      requires |points| >= 2 ==> width != 0 && height != 0
      modifies this, dstFacePoints.Repr
      ensures Valid() && fresh(dstFacePoints.Repr - old(dstFacePoints.Repr))
      ensures DstFace() == Scaled(points, width as real, height as real) + (if addBoard then Board() else [])
      ensures srcPcount == old(srcPcount) && trianglePcount == old(trianglePcount)
      ensures SrcFace() == old(SrcFace())
      ensures SrcTriangles() == old(SrcTriangles()) && DstTriangles() == old(DstTriangles())
    {
      var count := FillFacePoints(dstFacePoints, points, width, height, addBoard);
      dstPcount := count;
    }

    /**
     * generateTriangles(): fewer than two source floats or counts that differ
     * give no triangles. Otherwise the average of the two faces is
     * triangulated and each triangle vertex gets the matching point of each
     * face.
     */
    method GenerateTriangles(triangulate: seq<real> -> seq<nat>)
      requires Valid()
      requires forall pts: seq<real>, j :: 0 <= j < |triangulate(pts)| ==> triangulate(pts)[j] < |pts| / 2
      modifies this, srcTrianglePoints.Repr, dstTrianglePoints.Repr
      ensures Valid()
      ensures fresh(srcTrianglePoints.Repr - old(srcTrianglePoints.Repr))
      ensures fresh(dstTrianglePoints.Repr - old(dstTrianglePoints.Repr))
      ensures srcPcount == old(srcPcount) && dstPcount == old(dstPcount)
      ensures SrcFace() == old(SrcFace()) && DstFace() == old(DstFace())
      ensures srcPcount < 2 || srcPcount != dstPcount ==> trianglePcount == 0
      ensures !(srcPcount < 2 || srcPcount != dstPcount) ==>
                var t := triangulate(Midpoints(SrcFace(), DstFace()));
                && trianglePcount == 2 * |t|
                && SrcTriangles() == Gather(SrcFace(), t)
                && DstTriangles() == Gather(DstFace(), t)
    {
      if srcPcount < 2 || srcPcount != dstPcount {
        trianglePcount := 0;
        return;
      }
      var averagePoints := AveragePoints();
      var t := triangulate(averagePoints);
      CopyTrianglePoints(t);
    }

    /** The averaging loop of generateTriangles. */
    method AveragePoints() returns (average: seq<real>)
      requires Valid() && srcPcount <= dstPcount
      ensures average == Midpoints(SrcFace(), DstFace())
    {
      average := [];
      var i := 0;
      var size := srcPcount;
      while i < size
        invariant 0 <= i <= size && |average| == i
        invariant forall k :: 0 <= k < i ==> average[k] == (SrcFace()[k] + DstFace()[k]) / 2.0
      {
        average := average + [(srcFacePoints.At(i).value + dstFacePoints.At(i).value) / 2.0];
        i := i + 1;
      }
    }

    /** The rest of generateTriangles: room for the triangles' coordinates, then the copy loop. */
    method CopyTrianglePoints(t: seq<nat>)
      requires Valid()
      requires srcPcount == dstPcount && forall j :: 0 <= j < |t| ==> t[j] < srcPcount / 2
      modifies this, srcTrianglePoints.Repr, dstTrianglePoints.Repr
      ensures Valid() && trianglePcount == 2 * |t|
      ensures srcPcount == old(srcPcount) && dstPcount == old(dstPcount)
      ensures fresh(srcTrianglePoints.Repr - old(srcTrianglePoints.Repr))
      ensures fresh(dstTrianglePoints.Repr - old(dstTrianglePoints.Repr))
      ensures SrcFace() == old(SrcFace()) && DstFace() == old(DstFace())
      ensures SrcTriangles() == Gather(SrcFace(), t) && DstTriangles() == Gather(DstFace(), t)
    {
      var src, dst := ObtainTriangleRoom(|t| * 2);
      if |t| > 0 {
        GatherInto(src, dst, srcFacePoints, dstFacePoints, srcPcount, t);
      }
    }

    /** The two obtain calls of generateTriangles, with the new triangle count. */
    method ObtainTriangleRoom(n: nat) returns (src: array?<real>, dst: array?<real>)
      requires Valid()
      modifies this, srcTrianglePoints, dstTrianglePoints
      ensures Valid() && trianglePcount == n
      ensures srcPcount == old(srcPcount) && dstPcount == old(dstPcount)
      ensures fresh(srcTrianglePoints.Repr - old(srcTrianglePoints.Repr))
      ensures fresh(dstTrianglePoints.Repr - old(dstTrianglePoints.Repr))
      ensures SrcFace() == old(SrcFace()) && DstFace() == old(DstFace())
      ensures src == srcTrianglePoints.data && dst == dstTrianglePoints.data
      ensures n > 0 ==> src != null && dst != null && src != dst && n <= src.Length && n <= dst.Length
      ensures src !in srcFacePoints.Repr && src !in dstFacePoints.Repr
      ensures dst !in srcFacePoints.Repr && dst !in dstFacePoints.Repr
    {
      trianglePcount := n;
      src := srcTrianglePoints.Obtain(trianglePcount, false);
      dst := dstTrianglePoints.Obtain(trianglePcount, false);
      if n > 0 {
        PositiveProduct(n, FLOAT_SIZE);
      }
    }

    /**
     * render(percent): with fewer than three triangle floats the filter
     * blends the images; otherwise the percent buffer gets each vertex's
     * interpolated coordinate in clip space, and the filter gets it with both
     * texture coordinate buffers, which the second obtain leaves as they are.
     */
    method Render(percent: real) returns (m: MorphInput)
      requires Valid()
      modifies srcTrianglePoints, dstTrianglePoints, percentTrianglePoints.Repr
      ensures Valid()
      ensures srcPcount == old(srcPcount) && dstPcount == old(dstPcount) && trianglePcount == old(trianglePcount)
      ensures SrcFace() == old(SrcFace()) && DstFace() == old(DstFace())
      ensures SrcTriangles() == old(SrcTriangles()) && DstTriangles() == old(DstTriangles())
      ensures trianglePcount < 3 ==> m == ImageBlend(percent)
      ensures trianglePcount >= 3 ==>
                m == Mesh(percent, Vertices(percent, SrcTriangles(), DstTriangles()), SrcTriangles(), DstTriangles())
    {
      if trianglePcount < 3 {
        return ImageBlend(percent);
      }
      var weight := MixWeights(percent);
      var src, dst := ObtainTexCoords();
      m := Mesh(percent, weight[..trianglePcount], src[..trianglePcount], dst[..trianglePcount]);
    }

    /** The weight buffer of render: obtained, then filled with the clip-space coordinates. */
    method MixWeights(percent: real) returns (weight: array<real>)
      requires Valid() && trianglePcount > 0
      modifies percentTrianglePoints.Repr
      ensures Valid() && fresh(percentTrianglePoints.Repr - old(percentTrianglePoints.Repr))
      ensures weight == percentTrianglePoints.data && trianglePcount <= weight.Length
      ensures weight[..trianglePcount] == Vertices(percent, SrcTriangles(), DstTriangles())
    {
      var w := percentTrianglePoints.Obtain(trianglePcount, false);
      assert w != null by {
        PositiveProduct(trianglePcount, FLOAT_SIZE);
      }
      weight := w;
      MixInto(weight, srcTrianglePoints, dstTrianglePoints, trianglePcount, percent);
    }

    /** The second pair of obtain calls in render: the buffers already have the room, so nothing moves. */
    method ObtainTexCoords() returns (src: array<real>, dst: array<real>)
      requires Valid() && trianglePcount > 0
      modifies srcTrianglePoints, dstTrianglePoints
      ensures Valid()
      ensures srcTrianglePoints.data == old(srcTrianglePoints.data) && dstTrianglePoints.data == old(dstTrianglePoints.data)
      ensures src == srcTrianglePoints.data && dst == dstTrianglePoints.data
      ensures trianglePcount <= src.Length && trianglePcount <= dst.Length
      ensures src[..trianglePcount] == SrcTriangles() && dst[..trianglePcount] == DstTriangles()
    {
      var s := srcTrianglePoints.Obtain(trianglePcount, false);
      var d := dstTrianglePoints.Obtain(trianglePcount, false);
      PositiveProduct(trianglePcount, FLOAT_SIZE);
      MulMonotone(Room(srcTrianglePoints), trianglePcount, FLOAT_SIZE);
      MulMonotone(Room(dstTrianglePoints), trianglePcount, FLOAT_SIZE);
      src, dst := s, d;
    }
  }
}
