/**
 * The cube mesh of the second renderer: the constant vertex and index
 * tables, the upload of both into device buffers with the element counts
 * recorded afterwards, and the release of the two buffers.
 */
module Mesh {
  import opened Maybe
  import opened Common
  import opened Handles
  import opened CubeTypes

  /** One entry of the vertex table as initialised: a corner of the cube and its colour. */
  datatype Vertex = Vertex(x: real, y: real, z: real, red: real, green: real, blue: real)

  /** The eight corners: the face at z = 0.5 first, then the face at z = -0.5. */
  const Vertices: seq<Vertex> := [
    Vertex(-0.5, -0.5, 0.5, 1.0, 0.0, 0.0),
    Vertex(0.5, -0.5, 0.5, 0.0, 1.0, 0.0),
    Vertex(0.5, 0.5, 0.5, 0.0, 0.0, 1.0),
    Vertex(-0.5, 0.5, 0.5, 1.0, 1.0, 1.0),
    Vertex(-0.5, -0.5, -0.5, 1.0, 0.0, 0.0),
    Vertex(0.5, -0.5, -0.5, 0.0, 1.0, 0.0),
    Vertex(0.5, 0.5, -0.5, 0.0, 0.0, 1.0),
    Vertex(-0.5, 0.5, -0.5, 1.0, 1.0, 1.0)]

  /** Two triangles per face, six faces. */
  const Indices: seq<nat> := [
    0, 1, 2, 2, 3, 0,
    4, 5, 6, 6, 7, 4,
    0, 3, 4, 4, 3, 7,
    3, 2, 7, 7, 2, 6,
    2, 1, 6, 6, 1, 5,
    1, 0, 5, 5, 0, 4]

  /**
   * An index table for a triangle list, checked one triangle at a time:
   * it holds whole triangles and each index names one of the
   * `vertexCount` vertices.
   */
  function TrianglesWithin(indices: seq<nat>, vertexCount: nat): (ok: bool)
    ensures ok <==> |indices| % 3 == 0 && forall i :: 0 <= i < |indices| ==> indices[i] < vertexCount
  {
    if |indices| < 3 then indices == []
    else
      var rest := indices[3..];
      assert forall j :: 3 <= j < |indices| ==> indices[j] == rest[j - 3];
      assert |indices| % 3 == |rest| % 3;
      indices[0] < vertexCount && indices[1] < vertexCount && indices[2] < vertexCount &&
      TrianglesWithin(rest, vertexCount)
  }

  /** Triangle t of an index table names three different vertices. */
  predicate DistinctCorners(indices: seq<nat>, t: nat)
    requires 3 * t + 2 < |indices|
  {
    indices[3 * t] != indices[3 * t + 1] && indices[3 * t + 1] != indices[3 * t + 2] &&
    indices[3 * t] != indices[3 * t + 2]
  }

  /** Every triangle of an index table names three different vertices. */
  ghost predicate NonDegenerate(indices: seq<nat>)
  {
    forall t: nat :: 3 * t + 2 < |indices| ==> DistinctCorners(indices, t)
  }

  /** The triangle check run one triangle at a time, as a renderer would validate a table. */
  function TrianglesDistinct(indices: seq<nat>): (ok: bool)
    ensures ok <==> NonDegenerate(indices)
  {
    if |indices| < 3 then true
    else
      var rest := indices[3..];
      assert forall t: nat :: 3 * t + 2 < |rest| ==>
        (DistinctCorners(rest, t) <==> DistinctCorners(indices, t + 1));
      assert NonDegenerate(indices) ==> DistinctCorners(indices, 0);
      assert DistinctCorners(indices, 0) && NonDegenerate(rest) ==> NonDegenerate(indices) by {
        if DistinctCorners(indices, 0) && NonDegenerate(rest) {
          forall t: nat | 3 * t + 2 < |indices|
            ensures DistinctCorners(indices, t)
          {
            if t > 0 {
              assert DistinctCorners(rest, t - 1);
            }
          }
        }
      }
      DistinctCorners(indices, 0) && TrianglesDistinct(rest)
  }

  /** The cube's tables: 8 vertices and 36 indices, twelve whole triangles over those vertices. */
  lemma CubeIndicesWithin()
    ensures |Vertices| == 8 && |Indices| == 36 && |Indices| / 3 == 12
    ensures TrianglesWithin(Indices, |Vertices|)
  {
  }

  /** None of the cube's twelve triangles is degenerate. */
  lemma CubeTrianglesNonDegenerate()
    ensures NonDegenerate(Indices) && TrianglesDistinct(Indices)
  {
    forall t: nat | 3 * t + 2 < |Indices|
      ensures DistinctCorners(Indices, t)
    {
      assert t < 12;
      assert t == 0 || t == 1 || t == 2 || t == 3 || t == 4 || t == 5 ||
             t == 6 || t == 7 || t == 8 || t == 9 || t == 10 || t == 11;
    }
  }

  /** Every vertex of the cube is a corner of some triangle. */
  lemma CubeUsesEveryVertex()
    ensures forall v :: 0 <= v < |Vertices| ==> v in Indices
  {
  }

  /**
   * graphics_create_object. `recordAllocated` is whether the calloc of the object
   * record succeeded; `vertexUpload` and `indexUpload` are the two buffer
   * uploads (their CUBE status and the device buffer each wrote into the
   * record). The vertex table is uploaded first and the index table only
   * after it succeeded; the element counts are recorded only after both
   * uploads succeeded, and stay zero otherwise.
   */
  method CreateObject(g: CubeGraphics, recordAllocated: bool, vertexUpload: Reply, indexUpload: Reply)
    returns (result: int, uploads: nat)
    modifies g`mesh
    ensures result == CUBE_SUCCESS || result == CUBE_FAILURE
    ensures result == CUBE_SUCCESS <==>
              recordAllocated && vertexUpload.result == CUBE_SUCCESS && indexUpload.result == CUBE_SUCCESS
    ensures uploads == (if !recordAllocated then 0 else if vertexUpload.result != CUBE_SUCCESS then 1 else 2)
    ensures g.mesh.Some? <==> recordAllocated
    ensures recordAllocated ==>
              g.mesh.value.vertexBuffer == vertexUpload.handle &&
              g.mesh.value.indexBuffer == (if uploads == 2 then indexUpload.handle else Null)
    ensures recordAllocated && result == CUBE_SUCCESS ==>
              g.mesh.value.vertexCount == |Vertices| && g.mesh.value.indexCount == |Indices|
    ensures recordAllocated && result == CUBE_FAILURE ==> g.mesh.value.vertexCount == 0 && g.mesh.value.indexCount == 0
  {
    uploads := 0;
    if !recordAllocated {
      g.mesh := None;
      return CUBE_FAILURE, uploads;
    }
    g.mesh := Some(CubeObject(Null, Null, 0, 0));
    uploads := 1;
    g.mesh := Some(g.mesh.value.(vertexBuffer := vertexUpload.handle));
    if vertexUpload.result != CUBE_SUCCESS {
      return CUBE_FAILURE, uploads;
    }
    uploads := 2;
    g.mesh := Some(g.mesh.value.(indexBuffer := indexUpload.handle));
    if indexUpload.result != CUBE_SUCCESS {
      return CUBE_FAILURE, uploads;
    }
    g.mesh := Some(g.mesh.value.(vertexCount := |Vertices|, indexCount := |Indices|));
    return CUBE_SUCCESS, uploads;
  }

  datatype Destroyed = DestroyVertexBuffer | DestroyIndexBuffer

  function DestroyRank(kind: Destroyed): int
  {
    match kind
    case DestroyVertexBuffer => 0
    case DestroyIndexBuffer => 1
  }

  /**
   * graphics_destroy_object: the vertex buffer, then the index buffer, each
   * destroyed only when its handle is not null. The object record itself is
   * dereferenced without a check, so it must exist.
   */
  function DestroyObject(g: CubeGraphics): (calls: seq<Release<Destroyed>>)
    reads g
    requires g.mesh.Some?
    ensures forall c :: c in calls ==> c.handle != Null
    ensures Release(DestroyVertexBuffer, g.mesh.value.vertexBuffer) in calls <==> g.mesh.value.vertexBuffer != Null
    ensures Release(DestroyIndexBuffer, g.mesh.value.indexBuffer) in calls <==> g.mesh.value.indexBuffer != Null
    ensures Ordered(calls, DestroyRank)
  {
    var slots := [Release(DestroyVertexBuffer, g.mesh.value.vertexBuffer),
                  Release(DestroyIndexBuffer, g.mesh.value.indexBuffer)];
    SkipNullKeepsOrder(slots, DestroyRank);
    SkipNull(slots)
  }
}
