/** `gizmo_update_paint_node` of gizmo.cpp: copies the engine's draw data
    into a scene-graph geometry node, reusing the previous node when there
    is one. */
module PaintNode {
  import opened Vectors

  /** `QSGGeometry::ColoredPoint2D`. The colour is copied as it is; the
      conversion of each channel to a byte is not modelled. */
  datatype ColoredPoint2D = ColoredPoint2D(x: real, y: real, color: Rgba)

  const Origin: ColoredPoint2D := ColoredPoint2D(0.0, 0.0, Rgba(0.0, 0.0, 0.0, 0.0))

  /** A geometry node with its vertex and index buffers. */
  class GeometryNode {
    var vertexData: array<ColoredPoint2D>
    var indexData: array<U32>

    /** `new QSGGeometry(..., vertexCount, indexCount, ...)` */
    constructor (vertexCount: nat, indexCount: nat)
      ensures fresh(vertexData) && fresh(indexData)
      ensures vertexData.Length == vertexCount && indexData.Length == indexCount
    {
      vertexData := new ColoredPoint2D[vertexCount](_ => Origin);
      indexData := new U32[indexCount](_ => 0);
    }

    /** `QSGGeometry::allocate(vertexCount, indexCount)`: buffers of the new
        sizes. They are fresh so that the copy loops may write them without
        touching any other array; whether Qt reuses the old memory is not
        modelled. */
    method Allocate(vertexCount: nat, indexCount: nat)
      modifies this
      ensures fresh(vertexData) && fresh(indexData)
      ensures vertexData.Length == vertexCount && indexData.Length == indexCount
    {
      vertexData := new ColoredPoint2D[vertexCount](_ => Origin);
      indexData := new U32[indexCount](_ => 0);
    }
  }

  /** The vertex buffer the copy loop writes: vertex i takes position i and
      colour i. */
  function ColoredPoints(vertices: seq<Vec2>, colors: seq<Rgba>): (points: seq<ColoredPoint2D>)
    requires |vertices| == |colors|
    ensures |points| == |vertices|
    ensures forall i :: 0 <= i < |vertices| ==>
      points[i].x == vertices[i].x && points[i].y == vertices[i].y && points[i].color == colors[i]
  {
    seq(|vertices|, i requires 0 <= i < |vertices| => ColoredPoint2D(vertices[i].x, vertices[i].y, colors[i]))
  }

  /** The buffers hold what the draw data says, no more and no less. */
  ghost predicate Holds(node: GeometryNode, vertices: seq<Vec2>, colors: seq<Rgba>, indices: seq<U32>)
    reads node, node.vertexData, node.indexData
    requires |vertices| == |colors|
  {
    && node.vertexData[..] == ColoredPoints(vertices, colors)
    && |node.indexData[..]| == |indices|
    && forall k :: 0 <= k < |indices| ==> node.indexData[k] == indices[k]
  }

  /** `gizmo_update_paint_node`. Its assertions are its preconditions:
      parallel vertex and colour lists, no indices without vertices, and
      every index naming a vertex. Empty draw data drops the node (the
      result is null); otherwise the node, the old one if there was one,
      holds exactly the draw data. */
  method GizmoUpdatePaintNode(oldNode: GeometryNode?, vertices: seq<Vec2>, colors: seq<Rgba>, indices: seq<U32>)
    returns (node: GeometryNode?)
    requires |vertices| == |colors|
    requires |vertices| == 0 ==> |indices| == 0
    requires forall k :: 0 <= k < |indices| ==> indices[k] < |vertices|
    modifies oldNode
    ensures node == null <==> |vertices| == 0
    ensures node != null ==> Holds(node, vertices, colors, indices)
    ensures node != null ==> fresh(node.vertexData) && fresh(node.indexData)
    ensures node != null && oldNode != null ==> node == oldNode
    ensures node != null && oldNode == null ==> fresh(node)
  {
    if |vertices| == 0 {
      return null;
    }
    if oldNode == null {
      node := new GeometryNode(|vertices|, |indices|);
    } else {
      node := oldNode;
      node.Allocate(|vertices|, |indices|);
    }
    var vertexData, indexData := node.vertexData, node.indexData;
    var i := 0;
    while i < |vertices|
      invariant 0 <= i <= |vertices|
      invariant node.vertexData == vertexData && node.indexData == indexData
      invariant vertexData.Length == |vertices| && indexData.Length == |indices|
      invariant forall k :: 0 <= k < i ==> vertexData[k] == ColoredPoint2D(vertices[k].x, vertices[k].y, colors[k])
    {
      vertexData[i] := ColoredPoint2D(vertices[i].x, vertices[i].y, colors[i]);
      i := i + 1;
    }
    var j := 0;
    while j < |indices|
      invariant 0 <= j <= |indices|
      invariant node.vertexData == vertexData && node.indexData == indexData
      invariant vertexData.Length == |vertices| && indexData.Length == |indices|
      invariant forall k :: 0 <= k < |vertices| ==> vertexData[k] == ColoredPoint2D(vertices[k].x, vertices[k].y, colors[k])
      invariant forall k :: 0 <= k < j ==> indexData[k] == indices[k]
    {
      indexData[j] := indices[j];
      j := j + 1;
    }
  }
}
