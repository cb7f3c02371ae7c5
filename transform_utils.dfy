/**
 * The integer and comparison part of TransformUtils: rotation values, the
 * rect/size/vertex conversions and the four-way min and max. A vertex array is
 * a sequence of x, y pairs; float values are modelled as reals.
 */
module TransformUtils {
  import opened Wrappers
  import opened Platform
  import Surfaces

  datatype Exception =
    | IllegalState(rotationValue: int)       // surfaceRotationToRotationDegrees
    | IllegalArgument(rotationDegrees: int)  // is90or270

  /**
   * The size of a rect: its width and its height. They are Int differences, so an
   * edge distance beyond the Int range wraps around modulo 2^32.
   */
  function RectToSize(rect: Rect): (s: Size)
    ensures (s.width + rect.left - rect.right) % 0x1_0000_0000 == 0
    ensures (s.height + rect.top - rect.bottom) % 0x1_0000_0000 == 0
    ensures INT_MIN <= rect.right - rect.left <= INT_MAX ==> s.width + rect.left == rect.right
    ensures INT_MIN <= rect.bottom - rect.top <= INT_MAX ==> s.height + rect.top == rect.bottom
  {
    Size(rect.Width(), rect.Height())
  }

  /** The smaller of four values: it is one of them and no larger than any. */
  function Min4(v1: real, v2: real, v3: real, v4: real): (m: real)
    ensures m == v1 || m == v2 || m == v3 || m == v4
    ensures m <= v1 && m <= v2 && m <= v3 && m <= v4
  {
    Min(Min(v1, v2), Min(v3, v4))
  }

  /** The larger of four values: it is one of them and no smaller than any. */
  function Max4(v1: real, v2: real, v3: real, v4: real): (m: real)
    ensures m == v1 || m == v2 || m == v3 || m == v4
    ensures m >= v1 && m >= v2 && m >= v3 && m >= v4
  {
    Max(Max(v1, v2), Max(v3, v4))
  }

  function Min(a: real, b: real): real { if a <= b then a else b }
  function Max(a: real, b: real): real { if a >= b then a else b }

  /** The bounding box of the first four vertices (x at even, y at odd positions). */
  function VerticesToRect(vertices: seq<real>): (r: RectF)
    requires |vertices| >= 8
    ensures forall i :: 0 <= i < 4 ==>
      r.left <= vertices[2 * i] <= r.right && r.top <= vertices[2 * i + 1] <= r.bottom
    ensures exists i :: 0 <= i < 4 && r.left == vertices[2 * i]
    ensures exists i :: 0 <= i < 4 && r.top == vertices[2 * i + 1]
    ensures exists i :: 0 <= i < 4 && r.right == vertices[2 * i]
    ensures exists i :: 0 <= i < 4 && r.bottom == vertices[2 * i + 1]
  {
    var r := RectF(
      Min4(vertices[0], vertices[2], vertices[4], vertices[6]),
      Min4(vertices[1], vertices[3], vertices[5], vertices[7]),
      Max4(vertices[0], vertices[2], vertices[4], vertices[6]),
      Max4(vertices[1], vertices[3], vertices[5], vertices[7]));
    assert vertices[0] == vertices[2 * 0] && vertices[2] == vertices[2 * 1];
    assert vertices[4] == vertices[2 * 2] && vertices[6] == vertices[2 * 3];
    assert vertices[1] == vertices[2 * 0 + 1] && vertices[3] == vertices[2 * 1 + 1];
    assert vertices[5] == vertices[2 * 2 + 1] && vertices[7] == vertices[2 * 3 + 1];
    r
  }

  /** Surface.ROTATION_* to degrees; anything else is an IllegalStateException. */
  function SurfaceRotationToRotationDegrees(rotationValue: int): (r: Result<int, Exception>)
    ensures r.Success? <==> 0 <= rotationValue <= 3
    ensures r.Success? ==> IsRotationDegrees(r.value) && r.value == 90 * rotationValue
    ensures r.Failure? ==> r.error == IllegalState(rotationValue)
  {
    if rotationValue == ROTATION_0 then Success(0)
    else if rotationValue == ROTATION_90 then Success(90)
    else if rotationValue == ROTATION_180 then Success(180)
    else if rotationValue == ROTATION_270 then Success(270)
    else Failure(IllegalState(rotationValue))
  }

  /** Whether a rotation turns a quarter (90 or 270); other than the four values it throws. */
  function Is90or270(rotationDegrees: int): (r: Result<bool, Exception>)
    ensures r.Success? <==> IsRotationDegrees(rotationDegrees)
    ensures r == Success(true) <==> rotationDegrees % 180 == 90 && IsRotationDegrees(rotationDegrees)
    ensures r.Failure? ==> r.error == IllegalArgument(rotationDegrees)
  {
    if rotationDegrees == 90 || rotationDegrees == 270 then Success(true)
    else if rotationDegrees == 0 || rotationDegrees == 180 then Success(false)
    else Failure(IllegalArgument(rotationDegrees))
  }

  /** The corners (0,0), (w,0), (w,h), (0,h) of a size, as vertices: those of the rect (0, 0, w, h). */
  function SizeToVertices(size: Size): (v: seq<real>)
    ensures v == RectToVertices(RectF(0.0, 0.0, size.width as real, size.height as real))
  {
    var w, h := size.width as real, size.height as real;
    [0.0, 0.0, w, 0.0, w, h, 0.0, h]
  }

  /**
   * The corners top-left, top-right, bottom-right, bottom-left of a rect, as vertices:
   * every point is a corner, consecutive points share an edge, and for a rect whose
   * edges are ordered the signed area is positive, so they go round clockwise.
   */
  function RectToVertices(rect: RectF): (v: seq<real>)
    ensures |v| == 8 && v[0] == rect.left && v[1] == rect.top
    ensures forall i :: 0 <= i < 4 ==>
      (v[2 * i] == rect.left || v[2 * i] == rect.right) && (v[2 * i + 1] == rect.top || v[2 * i + 1] == rect.bottom)
    ensures forall i :: 0 <= i < 4 ==> SharesEdgeWithNext(v, i)
    ensures SignedArea2(v) == 2.0 * (rect.right - rect.left) * (rect.bottom - rect.top)
  {
    [rect.left, rect.top, rect.right, rect.top, rect.right, rect.bottom, rect.left, rect.bottom]
  }

  /** Going round a polygon of four vertices, vertex i and the next one lie on a common vertical or horizontal line. */
  predicate SharesEdgeWithNext(v: seq<real>, i: int)
    requires |v| == 8 && 0 <= i < 4
  {
    var j := (i + 1) % 4;
    v[2 * i] == v[2 * j] || v[2 * i + 1] == v[2 * j + 1]
  }

  /**
   * Twice the signed area of the polygon of four vertices (the shoelace sum). With
   * y growing downwards, as in view coordinates, it is positive when the vertices go
   * round clockwise on screen and negative when they go counter-clockwise.
   */
  function SignedArea2(v: seq<real>): real
    requires |v| == 8
  {
    (v[0] * v[3] - v[2] * v[1]) + (v[2] * v[5] - v[4] * v[3]) +
    (v[4] * v[7] - v[6] * v[5]) + (v[6] * v[1] - v[0] * v[7])
  }

  /** A rect whose edges are ordered survives the trip through its vertices. */
  lemma RectVerticesRoundTrip(rect: RectF)
    requires rect.left <= rect.right && rect.top <= rect.bottom
    ensures VerticesToRect(RectToVertices(rect)) == rect
  {
    var v := RectToVertices(rect);
    assert Min4(v[0], v[2], v[4], v[6]) == rect.left;
    assert Max4(v[1], v[3], v[5], v[7]) == rect.bottom;
  }

  /** A rect whose edges are out of order comes back with them sorted. */
  lemma RectVerticesNormalizes(rect: RectF)
    ensures VerticesToRect(RectToVertices(rect)) ==
      RectF(Min(rect.left, rect.right), Min(rect.top, rect.bottom),
            Max(rect.left, rect.right), Max(rect.top, rect.bottom))
  {
  }

  /** A non-negative size becomes the rect (0, 0, w, h). */
  lemma SizeVerticesRoundTrip(size: Size)
    requires size.width >= 0 && size.height >= 0
    ensures VerticesToRect(SizeToVertices(size)) == RectF(0.0, 0.0, size.width as real, size.height as real)
  {
  }

  /** A rect spanning the whole Int range has width -1: the distance wraps around. */
  lemma RectToSizeWraps()
    ensures RectToSize(Rect(INT_MIN, 0, INT_MAX, 0)).width == -1
    ensures RectToSize(Rect(INT_MIN, 0, INT_MAX, 0)).height == 0
  {
    assert (0xffff_ffff + 0x8000_0000) % 0x1_0000_0000 == 0x7fff_ffff;
  }

  /**
   * The size of a rect, laid out from the origin, has the rect's corners moved to the
   * origin, as long as its width and height do not wrap around.
   */
  lemma SizeVerticesAreTranslatedRectVertices(rect: Rect)
    requires INT_MIN <= rect.right - rect.left <= INT_MAX && INT_MIN <= rect.bottom - rect.top <= INT_MAX
    ensures var v := SizeToVertices(RectToSize(rect));
      var u := RectToVertices(RectF(rect.left as real, rect.top as real, rect.right as real, rect.bottom as real));
      forall i :: 0 <= i < 8 ==> v[i] == u[i] - (if i % 2 == 0 then rect.left as real else rect.top as real)
  {
  }

  /** The two rotation tables of the repository agree, and Is90or270 accepts exactly their results. */
  lemma RotationTablesAgree(rotationValue: int)
    ensures SurfaceRotationToRotationDegrees(rotationValue).Success?
      ==> Is90or270(SurfaceRotationToRotationDegrees(rotationValue).value) == Success(rotationValue % 2 == 1)
  {
  }

  /**
   * Surfaces.toSurfaceRotationDegrees and surfaceRotationToRotationDegrees accept the
   * same inputs and give the same degrees; they differ only in the exception thrown.
   */
  lemma SurfaceTablesAgree(rotationValue: int)
    ensures Surfaces.ToSurfaceRotationDegrees(rotationValue).Success?
      == SurfaceRotationToRotationDegrees(rotationValue).Success?
    ensures Surfaces.ToSurfaceRotationDegrees(rotationValue).Success? ==>
      Surfaces.ToSurfaceRotationDegrees(rotationValue).value == SurfaceRotationToRotationDegrees(rotationValue).value
  {
  }
}
