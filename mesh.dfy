/**
 * The mesh records the loader hands to the scene code: per sub-mesh a vertex
 * list (position, normal, texture coordinates) and a flat index list. The
 * loader itself (Mesh.h, Model.h) is not part of this model; only the fields
 * the core reads are kept. Both getTriangle and getTexture walk the meshes in
 * order and concatenate their vertices and their indices, so the
 * concatenations are defined here once.
 */
module Meshes {
  import opened Vectors

  datatype Vertex = Vertex(Position: Vec3, Normal: Vec3, TexCoords: Vec2)

  /** Indices are unsigned (GLuint) and local to the mesh they come from. */
  datatype Mesh = Mesh(vertices: seq<Vertex>, indices: seq<nat>)

  /** The vertices of all meshes, mesh after mesh. */
  function AllVertices(data: seq<Mesh>): seq<Vertex> {
    if data == [] then [] else AllVertices(data[..|data| - 1]) + data[|data| - 1].vertices
  }

  /** The indices of all meshes, mesh after mesh, taken as they are (no per-mesh offset). */
  function AllIndices(data: seq<Mesh>): seq<nat> {
    if data == [] then [] else AllIndices(data[..|data| - 1]) + data[|data| - 1].indices
  }

  /** The sum of the meshes' vertex counts. */
  function VertexCount(data: seq<Mesh>): nat {
    if data == [] then 0 else VertexCount(data[..|data| - 1]) + |data[|data| - 1].vertices|
  }

  /** The sum of the meshes' index counts. */
  function IndexCount(data: seq<Mesh>): nat {
    if data == [] then 0 else IndexCount(data[..|data| - 1]) + |data[|data| - 1].indices|
  }

  /** Taking one more mesh appends exactly its vertices and its indices. */
  lemma PrefixStep(data: seq<Mesh>, i: nat)
    requires i < |data|
    ensures AllVertices(data[..i + 1]) == AllVertices(data[..i]) + data[i].vertices
    ensures AllIndices(data[..i + 1]) == AllIndices(data[..i]) + data[i].indices
    ensures VertexCount(data[..i + 1]) == VertexCount(data[..i]) + |data[i].vertices|
    ensures IndexCount(data[..i + 1]) == IndexCount(data[..i]) + |data[i].indices|
  {
    assert data[..i + 1][..i] == data[..i];
  }

  /** The counts are the lengths of the concatenations. */
  lemma {:induction false} CountsAreLengths(data: seq<Mesh>)
    ensures |AllVertices(data)| == VertexCount(data)
    ensures |AllIndices(data)| == IndexCount(data)
  {
    if data != [] {
      CountsAreLengths(data[..|data| - 1]);
    }
  }

  /**
   * Mesh m's vertices form one contiguous block of the concatenation, starting
   * after the vertices of the meshes before it.
   */
  lemma {:induction false} VertexBlock(data: seq<Mesh>, m: nat, j: nat)
    requires m < |data| && j < |data[m].vertices|
    ensures VertexCount(data[..m]) + j < |AllVertices(data)|
    ensures AllVertices(data)[VertexCount(data[..m]) + j] == data[m].vertices[j]
  {
    var last := |data| - 1;
    var front := data[..last];
    assert AllVertices(data) == AllVertices(front) + data[last].vertices;
    CountsAreLengths(front);
    if m == last {
      assert data[..m] == front;
    } else {
      assert front[..m] == data[..m];
      VertexBlock(front, m, j);
    }
  }

  /** The same for the indices. */
  lemma {:induction false} IndexBlock(data: seq<Mesh>, m: nat, j: nat)
    requires m < |data| && j < |data[m].indices|
    ensures IndexCount(data[..m]) + j < |AllIndices(data)|
    ensures AllIndices(data)[IndexCount(data[..m]) + j] == data[m].indices[j]
  {
    var last := |data| - 1;
    var front := data[..last];
    assert AllIndices(data) == AllIndices(front) + data[last].indices;
    CountsAreLengths(front);
    if m == last {
      assert data[..m] == front;
    } else {
      assert front[..m] == data[..m];
      IndexBlock(front, m, j);
    }
  }

  /** The meshes up to and including mesh m contribute no more than all of them. */
  lemma {:induction false} PrefixBounded(data: seq<Mesh>, m: nat)
    requires m < |data|
    ensures VertexCount(data[..m]) + |data[m].vertices| <= VertexCount(data)
    ensures IndexCount(data[..m]) + |data[m].indices| <= IndexCount(data)
    decreases |data| - m
  {
    PrefixStep(data, m);
    if m + 1 < |data| {
      PrefixBounded(data, m + 1);
    } else {
      assert data[..m + 1] == data;
    }
  }

  /** Every index moved up by the same base. */
  function Shifted(idx: seq<nat>, base: nat): (r: seq<nat>)
    ensures |r| == |idx|
    ensures forall k :: 0 <= k < |idx| ==> r[k] == idx[k] + base
  {
    seq(|idx|, k requires 0 <= k < |idx| => idx[k] + base)
  }

  /**
   * The evidently intended index list of the concatenation: each mesh's
   * indices shifted by the number of vertices gathered before it.
   */
  function RebasedIndices(data: seq<Mesh>): (r: seq<nat>)
    ensures |r| == |AllIndices(data)|
  {
    if data == [] then []
    else
      var front := data[..|data| - 1];
      RebasedIndices(front) + Shifted(data[|data| - 1].indices, VertexCount(front))
  }

  /** Mesh m's shifted indices form one block of the rebased list, at the same place as in `AllIndices`. */
  lemma {:induction false} RebasedBlock(data: seq<Mesh>, m: nat, j: nat)
    requires m < |data| && j < |data[m].indices|
    ensures IndexCount(data[..m]) + j < |RebasedIndices(data)|
    ensures RebasedIndices(data)[IndexCount(data[..m]) + j] == VertexCount(data[..m]) + data[m].indices[j]
  {
    var last := |data| - 1;
    var front := data[..last];
    assert RebasedIndices(data) == RebasedIndices(front) + Shifted(data[last].indices, VertexCount(front));
    CountsAreLengths(front);
    if m == last {
      assert data[..m] == front;
    } else {
      assert front[..m] == data[..m];
      RebasedBlock(front, m, j);
    }
  }

  /**
   * With the rebased list, index j of mesh m names, in the concatenated
   * vertices, exactly the vertex of mesh m it names locally.
   */
  lemma RebasedIndicesNameOwnVertices(data: seq<Mesh>, m: nat, j: nat)
    requires m < |data| && j < |data[m].indices| && data[m].indices[j] < |data[m].vertices|
    ensures IndexCount(data[..m]) + j < |RebasedIndices(data)|
    ensures RebasedIndices(data)[IndexCount(data[..m]) + j] < |AllVertices(data)|
    ensures AllVertices(data)[RebasedIndices(data)[IndexCount(data[..m]) + j]] == data[m].vertices[data[m].indices[j]]
  {
    RebasedBlock(data, m, j);
    VertexBlock(data, m, data[m].indices[j]);
  }

  /**
   * The concatenation as written: with two one-triangle meshes, the second
   * mesh's first index is still 0 and names the first mesh's vertex, where
   * the rebased list names the second mesh's own vertex.
   */
  lemma MeshLocalIndicesAsWritten(v: Vertex, w: Vertex)
    requires v != w
    ensures var data := [Mesh([v, v, v], [0, 1, 2]), Mesh([w, w, w], [0, 1, 2])];
      && |AllIndices(data)| == 6 && |AllVertices(data)| == 6
      && AllIndices(data)[3] == 0
      && AllVertices(data)[AllIndices(data)[3]] == v != w
      && RebasedIndices(data)[3] == 3
      && AllVertices(data)[RebasedIndices(data)[3]] == w
  {
    var data := [Mesh([v, v, v], [0, 1, 2]), Mesh([w, w, w], [0, 1, 2])];
    assert data[..1] == [data[0]];
    assert data[..1][..0] == [];
    assert AllVertices(data[..1]) == [v, v, v];
    assert AllIndices(data[..1]) == [0, 1, 2];
    assert AllIndices(data) == [0, 1, 2] + [0, 1, 2];
    assert AllVertices(data) == [v, v, v] + [w, w, w];
    assert VertexCount(data[..1]) == 3;
    assert RebasedIndices(data[..1]) == [0, 1, 2];
    assert RebasedIndices(data) == [0, 1, 2] + [3, 4, 5];
  }
}
