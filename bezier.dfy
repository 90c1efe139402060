/** `bezier_curve_update_paint_node` of bezier_curve.cpp: samples a cubic
    Bézier curve given by four control points in unit coordinates into a
    line-strip vertex buffer, scaled by the item's size.

    Arithmetic is exact over `real`; the conversion of each coordinate to
    `float` is not modelled. The one non-finite value the loop can produce,
    the 0/0 parameter when there is a single sample, is kept. */
module BezierCurve {
  import opened Floats
  import opened Vectors

  /** `QSGGeometry::Point2D` */
  datatype Point2D = Point2D(x: Float, y: Float)

  const Unset: Point2D := Point2D(Finite(0.0), Finite(0.0))

  /** A geometry node whose geometry holds a line strip of `Point2D`. */
  class LineStripNode {
    var vertexData: array<Point2D>

    /** A new node with a new geometry of `vertexCount` points. */
    constructor (vertexCount: nat)
      ensures fresh(vertexData) && vertexData.Length == vertexCount
    {
      vertexData := new Point2D[vertexCount](_ => Unset);
    }

    /** `QSGGeometry::allocate(vertexCount)`: a buffer of the new size. It is
        fresh so that the fill loop may write it without touching any other
        array; whether Qt reuses the old memory is not modelled. */
    method Allocate(vertexCount: nat)
      modifies this
      ensures fresh(vertexData) && vertexData.Length == vertexCount
    {
      vertexData := new Point2D[vertexCount](_ => Unset);
    }
  }

  /** The curve parameter of sample `i` out of `n`, `i / (n - 1)` in
      floating point: with a single sample it is 0/0, not a number. */
  function Param(i: nat, n: nat): (t: Float)
    requires i < n
    ensures t.NonFinite? <==> n == 1
  {
    if n == 1 then NonFinite else Finite(i as real / (n - 1) as real)
  }

  /** With at least two samples every parameter lies in [0, 1], and the
      parameter strictly increases with the sample index. */
  lemma ParamInUnitAndIncreasing(i: nat, j: nat, n: nat)
    requires 2 <= n && i < n && j < n
    ensures 0.0 <= Param(i, n).v <= 1.0
    ensures i < j ==> Param(i, n).v < Param(j, n).v
  {
    var d := (n - 1) as real;
    DivInUnit(i as real, d);
    if i < j {
      DivLess(i as real, j as real, d);
    }
  }

  /** The parameter is 0 at the first sample and 1 at the last one. */
  lemma ParamEnds(n: nat)
    requires 2 <= n
    ensures Param(0, n) == Finite(0.0) && Param(n - 1, n) == Finite(1.0)
  {
    DivSelf((n - 1) as real);
  }

  // Facts of real arithmetic the proofs below use.

  lemma MulNonNeg(x: real, y: real)
    requires 0.0 <= x && 0.0 <= y
    ensures 0.0 <= x * y
  {
  }

  lemma MulBounds(b: real, x: real)
    requires 0.0 <= b && 0.0 <= x <= 1.0
    ensures 0.0 <= b * x <= b
  {
    MulNonNeg(b, x);
    MulNonNeg(b, 1.0 - x);
  }

  lemma LinearSum(p: real, q: real, u: real, v: real)
    requires 0.0 <= p <= u && 0.0 <= q <= v
    ensures 0.0 <= p + q <= u + v
  {
  }

  lemma PairBounds(w0: real, w1: real, a: real, b: real)
    requires 0.0 <= w0 && 0.0 <= w1 && 0.0 <= a <= 1.0 && 0.0 <= b <= 1.0
    ensures 0.0 <= w0 * a + w1 * b <= w0 + w1
  {
    MulBounds(w0, a);
    MulBounds(w1, b);
    LinearSum(w0 * a, w1 * b, w0, w1);
  }

  lemma DivInUnit(x: real, d: real)
    requires 0.0 < d && 0.0 <= x <= d
    ensures 0.0 <= x / d <= 1.0
  {
    var q := x / d;
    assert q * d == x;
    if q < 0.0 { MulNonNeg(-q, d); }
    if q > 1.0 { MulNonNeg(q - 1.0, d); }
  }

  lemma DivLess(x: real, y: real, d: real)
    requires 0.0 < d && x < y
    ensures x / d < y / d
  {
    var q, r := x / d, y / d;
    assert q * d == x && r * d == y;
    if q >= r { MulNonNeg(q - r, d); }
  }

  lemma DivSelf(d: real)
    requires 0.0 < d
    ensures d / d == 1.0
  {
  }

  /** The four cubic Bernstein weights at `t`. */
  datatype Weights = Weights(b0: real, b1: real, b2: real, b3: real)

  function Bernstein(t: real): Weights {
    var s := 1.0 - t;
    Weights(s * s * s, 3.0 * s * s * t, 3.0 * s * t * t, t * t * t)
  }

  function Sum(w: Weights): real {
    w.b0 + w.b1 + w.b2 + w.b3
  }

  /** The weights add up to one for every `t`: a sample is an affine
      combination of the control points. */
  lemma {:induction false} BernsteinPartitionOfUnity(t: real)
    ensures Sum(Bernstein(t)) == 1.0
  {
    var s := 1.0 - t;
    calc {
      Sum(Bernstein(t));
      s * s * s + 3.0 * s * s * t + 3.0 * s * t * t + t * t * t;
      (s + t) * (s + t) * (s + t);
      { assert s + t == 1.0; }
      1.0;
    }
  }

  /** At the two ends of [0, 1] all the weight lies on the first or the
      last control point. */
  lemma BernsteinAtEnds()
    ensures Bernstein(0.0) == Weights(1.0, 0.0, 0.0, 0.0)
    ensures Bernstein(1.0) == Weights(0.0, 0.0, 0.0, 1.0)
  {
  }

  /** On [0, 1] every weight is non-negative. */
  lemma {:induction false} BernsteinNonNegative(t: real)
    requires 0.0 <= t <= 1.0
    ensures var w := Bernstein(t); 0.0 <= w.b0 && 0.0 <= w.b1 && 0.0 <= w.b2 && 0.0 <= w.b3
  {
    var s := 1.0 - t;
    MulNonNeg(s, s);
    MulNonNeg(s * s, s);
    MulNonNeg(3.0, s);
    MulNonNeg(3.0 * s, s);
    MulNonNeg(3.0 * s * s, t);
    MulNonNeg(3.0 * s, t);
    MulNonNeg(3.0 * s * t, t);
    MulNonNeg(t, t);
    MulNonNeg(t * t, t);
  }

  /** The weighted sum of four control coordinates. */
  function Weighted(w: Weights, a: real, b: real, c: real, d: real): real {
    w.b0 * a + w.b1 * b + w.b2 * c + w.b3 * d
  }

  /** One coordinate of the curve at `t` in unit coordinates. The point
      arithmetic of the source works coordinate by coordinate. */
  function CurveCoord(t: real, a: real, b: real, c: real, d: real): real {
    Weighted(Bernstein(t), a, b, c, d)
  }

  /** One coordinate of a vertex: the curve coordinate scaled by the
      item's extent along that axis, or not a number when the parameter
      is not. */
  function Axis(t: Float, a: real, b: real, c: real, d: real, extent: real): Float {
    match t
    case NonFinite => NonFinite
    case Finite(t) => Finite(CurveCoord(t, a, b, c, d) * extent)
  }

  /** The vertex for parameter `t`: x from the control points' x and the
      width, y from their y and the height. */
  function Sample(size: Size, p1: Point, p2: Point, p3: Point, p4: Point, t: Float): Point2D {
    Point2D(Axis(t, p1.x, p2.x, p3.x, p4.x, size.width), Axis(t, p1.y, p2.y, p3.y, p4.y, size.height))
  }

  /** Vertex `i` of `n`. */
  function Vertex(size: Size, p1: Point, p2: Point, p3: Point, p4: Point, i: nat, n: nat): Point2D
    requires i < n
  {
    Sample(size, p1, p2, p3, p4, Param(i, n))
  }

  // The definitions above, one step at a time: the solver handles the
  // products in them far better when it is handed these equations than
  // when it unfolds the definitions itself.

  lemma CurveIsWeighted(t: real, a: real, b: real, c: real, d: real)
    ensures CurveCoord(t, a, b, c, d) == Weighted(Bernstein(t), a, b, c, d)
  {
  }

  lemma AxisOfFinite(t: real, a: real, b: real, c: real, d: real, extent: real)
    ensures Axis(Finite(t), a, b, c, d, extent) == Finite(CurveCoord(t, a, b, c, d) * extent)
  {
  }

  lemma AxisOfCurve(t: real, a: real, b: real, c: real, d: real, extent: real, x: real)
    requires CurveCoord(t, a, b, c, d) == x
    ensures Axis(Finite(t), a, b, c, d, extent) == Finite(x * extent)
  {
    AxisOfFinite(t, a, b, c, d, extent);
  }

  lemma VertexOfParam(size: Size, p1: Point, p2: Point, p3: Point, p4: Point, i: nat, n: nat)
    requires i < n
    ensures Vertex(size, p1, p2, p3, p4, i, n) ==
      Point2D(Axis(Param(i, n), p1.x, p2.x, p3.x, p4.x, size.width), Axis(Param(i, n), p1.y, p2.y, p3.y, p4.y, size.height))
  {
  }

  /** The whole buffer the loop writes. */
  function Vertices(size: Size, p1: Point, p2: Point, p3: Point, p4: Point, n: nat): (vs: seq<Point2D>)
    ensures |vs| == n
    ensures forall i :: 0 <= i < n ==> vs[i] == Vertex(size, p1, p2, p3, p4, i, n)
  {
    seq(n, i requires 0 <= i < n => Vertex(size, p1, p2, p3, p4, i, n))
  }

  /** `bezier_curve_update_paint_node`. A negative segment count is not a
      valid buffer size, so the count must be non-negative. The old node,
      when there is one, is reused with a reallocated buffer; every one of
      the `segmentCount` vertices is written. */
  method BezierCurveUpdatePaintNode(oldNode: LineStripNode?, size: Size,
                                    p1: Point, p2: Point, p3: Point, p4: Point,
                                    segmentCount: int)
    returns (node: LineStripNode)
    requires 0 <= segmentCount
    modifies oldNode
    ensures oldNode != null ==> node == oldNode
    ensures oldNode == null ==> fresh(node)
    ensures fresh(node.vertexData)
    ensures node.vertexData[..] == Vertices(size, p1, p2, p3, p4, segmentCount)
  {
    if oldNode == null {
      node := new LineStripNode(segmentCount);
    } else {
      node := oldNode;
      node.Allocate(segmentCount);
    }
    var vertices := node.vertexData;
    var i := 0;
    while i < segmentCount
      invariant 0 <= i <= segmentCount
      invariant node.vertexData == vertices && vertices.Length == segmentCount
      invariant forall k :: 0 <= k < i ==> vertices[k] == Vertex(size, p1, p2, p3, p4, k, segmentCount)
    {
      var t: Float := if segmentCount == 1 then NonFinite else Finite(i as real / (segmentCount - 1) as real);
      vertices[i] := Sample(size, p1, p2, p3, p4, t);
      i := i + 1;
    }
  }

  // ---------------------------------------------------------------------
  // Properties of the sampled curve
  // ---------------------------------------------------------------------

  function Scaled(p: Point, size: Size): Point2D {
    Point2D(Finite(p.x * size.width), Finite(p.y * size.height))
  }

  lemma WeightedUnit(a: real, b: real, c: real, d: real)
    ensures Weighted(Weights(1.0, 0.0, 0.0, 0.0), a, b, c, d) == a
    ensures Weighted(Weights(0.0, 0.0, 0.0, 1.0), a, b, c, d) == d
  {
  }

  lemma CurveCoordAtEnds(a: real, b: real, c: real, d: real)
    ensures CurveCoord(0.0, a, b, c, d) == a && CurveCoord(1.0, a, b, c, d) == d
  {
    BernsteinAtEnds();
    WeightedUnit(a, b, c, d);
    CurveIsWeighted(0.0, a, b, c, d);
    CurveIsWeighted(1.0, a, b, c, d);
  }

  /** At the two ends of the parameter range a coordinate is that of the
      first or the last control point, scaled. */
  lemma AxisAtStart(t: real, a: real, b: real, c: real, d: real, extent: real)
    requires t == 0.0
    ensures Axis(Finite(t), a, b, c, d, extent) == Finite(a * extent)
  {
    CurveCoordAtEnds(a, b, c, d);
    AxisOfCurve(t, a, b, c, d, extent, a);
  }

  lemma AxisAtEnd(t: real, a: real, b: real, c: real, d: real, extent: real)
    requires t == 1.0
    ensures Axis(Finite(t), a, b, c, d, extent) == Finite(d * extent)
  {
    CurveCoordAtEnds(a, b, c, d);
    AxisOfCurve(t, a, b, c, d, extent, d);
  }

  lemma VertexAtEnds(size: Size, p1: Point, p2: Point, p3: Point, p4: Point, i: nat, n: nat)
    requires 2 <= n && (i == 0 || i == n - 1)
    ensures i == 0 ==> Vertex(size, p1, p2, p3, p4, i, n) == Scaled(p1, size)
    ensures i == n - 1 ==> Vertex(size, p1, p2, p3, p4, i, n) == Scaled(p4, size)
  {
    ParamEnds(n);
    var t := Param(i, n).v;
    if i == 0 {
      AxisAtStart(t, p1.x, p2.x, p3.x, p4.x, size.width);
      AxisAtStart(t, p1.y, p2.y, p3.y, p4.y, size.height);
    } else {
      AxisAtEnd(t, p1.x, p2.x, p3.x, p4.x, size.width);
      AxisAtEnd(t, p1.y, p2.y, p3.y, p4.y, size.height);
    }
    VertexOfParam(size, p1, p2, p3, p4, i, n);
  }

  /** With at least two samples the strip starts at `p1` and ends at `p4`,
      each scaled by the item's size. */
  lemma {:induction false} FirstAndLastVertex(size: Size, p1: Point, p2: Point, p3: Point, p4: Point, n: nat, i: nat)
    requires 2 <= n && (i == 0 || i == n - 1)
    ensures i == 0 ==> Vertices(size, p1, p2, p3, p4, n)[i] == Scaled(p1, size)
    ensures i == n - 1 ==> Vertices(size, p1, p2, p3, p4, n)[i] == Scaled(p4, size)
  {
    VertexAtEnds(size, p1, p2, p3, p4, i, n);
  }

  /** With a single sample the only vertex is not a number. */
  lemma SingleSampleIsNotANumber(size: Size, p1: Point, p2: Point, p3: Point, p4: Point)
    ensures Vertices(size, p1, p2, p3, p4, 1) == [Point2D(NonFinite, NonFinite)]
  {
  }

  /** A convex combination of numbers in [0, 1] stays in [0, 1]. */
  lemma ConvexInUnit(w: Weights, a: real, b: real, c: real, d: real)
    requires 0.0 <= w.b0 && 0.0 <= w.b1 && 0.0 <= w.b2 && 0.0 <= w.b3 && Sum(w) == 1.0
    requires 0.0 <= a <= 1.0 && 0.0 <= b <= 1.0 && 0.0 <= c <= 1.0 && 0.0 <= d <= 1.0
    ensures 0.0 <= Weighted(w, a, b, c, d) <= 1.0
  {
    PairBounds(w.b0, w.b1, a, b);
    PairBounds(w.b2, w.b3, c, d);
  }

  /** For a parameter in [0, 1] and control coordinates in [0, 1], the
      curve coordinate stays in [0, 1]. */
  lemma {:induction false} CurveCoordInUnit(t: real, a: real, b: real, c: real, d: real)
    requires 0.0 <= t <= 1.0
    requires 0.0 <= a <= 1.0 && 0.0 <= b <= 1.0 && 0.0 <= c <= 1.0 && 0.0 <= d <= 1.0
    ensures 0.0 <= CurveCoord(t, a, b, c, d) <= 1.0
  {
    var w := Bernstein(t);
    BernsteinNonNegative(t);
    BernsteinPartitionOfUnity(t);
    ConvexInUnit(w, a, b, c, d);
  }

  /** ... and the vertex coordinate lies between 0 and the extent. */
  lemma {:induction false} AxisInsideExtent(t: real, a: real, b: real, c: real, d: real, extent: real)
    requires 0.0 <= t <= 1.0 && 0.0 <= extent
    requires 0.0 <= a <= 1.0 && 0.0 <= b <= 1.0 && 0.0 <= c <= 1.0 && 0.0 <= d <= 1.0
    ensures 0.0 <= Axis(Finite(t), a, b, c, d, extent).v <= extent
  {
    var x := CurveCoord(t, a, b, c, d);
    CurveCoordInUnit(t, a, b, c, d);
    MulBounds(extent, x);
    assert Axis(Finite(t), a, b, c, d, extent).v == x * extent == extent * x;
  }

  predicate InUnitSquare(p: Point) {
    0.0 <= p.x <= 1.0 && 0.0 <= p.y <= 1.0
  }

  /** Control points in the unit square give vertices inside the item:
      every x in [0, width] and every y in [0, height]. */
  lemma {:induction false} VerticesInsideItem(size: Size, p1: Point, p2: Point, p3: Point, p4: Point, n: nat, i: nat)
    requires 2 <= n && i < n
    requires 0.0 <= size.width && 0.0 <= size.height
    requires InUnitSquare(p1) && InUnitSquare(p2) && InUnitSquare(p3) && InUnitSquare(p4)
    ensures var v := Vertices(size, p1, p2, p3, p4, n)[i];
      v.x.Finite? && v.y.Finite? &&
      0.0 <= v.x.v <= size.width && 0.0 <= v.y.v <= size.height
  {
    var t := Param(i, n).v;
    ParamInUnitAndIncreasing(i, i, n);
    AxisInsideExtent(t, p1.x, p2.x, p3.x, p4.x, size.width);
    AxisInsideExtent(t, p1.y, p2.y, p3.y, p4.y, size.height);
  }

  lemma WeightedShift(w: Weights, a: real, b: real, c: real, d: real, delta: real)
    ensures Weighted(w, a + delta, b + delta, c + delta, d + delta) == Weighted(w, a, b, c, d) + Sum(w) * delta
  {
  }

  /** Moving the four control coordinates by the same offset moves the
      curve coordinate by that offset: the weights sum to one, so every
      sample is an affine combination of the control points, and a curve
      whose control points move together is drawn moved, not distorted. */
  lemma {:induction false} CurveTranslates(t: real, a: real, b: real, c: real, d: real, delta: real)
    ensures CurveCoord(t, a + delta, b + delta, c + delta, d + delta) == CurveCoord(t, a, b, c, d) + delta
  {
    BernsteinPartitionOfUnity(t);
    WeightedShift(Bernstein(t), a, b, c, d, delta);
  }

  /** A vertex's x depends only on the control points' x and the width,
      and its y only on their y and the height: resizing the item along one
      axis leaves the other coordinate of every vertex where it was. */
  lemma AxesIndependent(size: Size, p1: Point, p2: Point, p3: Point, p4: Point,
                        size': Size, q1: Point, q2: Point, q3: Point, q4: Point, t: Float)
    ensures size.width == size'.width && p1.x == q1.x && p2.x == q2.x && p3.x == q3.x && p4.x == q4.x ==>
      Sample(size, p1, p2, p3, p4, t).x == Sample(size', q1, q2, q3, q4, t).x
    ensures size.height == size'.height && p1.y == q1.y && p2.y == q2.y && p3.y == q3.y && p4.y == q4.y ==>
      Sample(size, p1, p2, p3, p4, t).y == Sample(size', q1, q2, q3, q4, t).y
  {
  }
}
