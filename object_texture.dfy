/**
 * The legacy mesh-texture packer of src/core/ObjectTexture.h: count the
 * vertices and indices of all meshes, size a near-square texel grid for each,
 * fill a stride-8 vertex buffer and a flat index buffer with two running
 * cursors, and record the totals on the texture object.
 *
 * `sqrtf` and `ceilf` are taken exactly (an integer ceiling square root and
 * an integer ceiling division); the GL texture creation and upload are not
 * part of this model, the buffers handed to it are the result.
 */
module ObjectTextures {
  import opened Vectors
  import opened Meshes

  // ---------------------------------------------------------------------------
  // Grid sizing

  /** r is the ceiling of the square root of n. */
  predicate IsCeilSqrt(n: nat, r: nat) {
    r * r >= n && (r == 0 || (r - 1) * (r - 1) < n)
  }

  /** The search behind CeilSqrt: the first k' >= k whose square reaches n. */
  function CeilSqrtFrom(n: nat, k: nat): (r: nat)
    requires k == 0 || (k - 1) * (k - 1) < n
    ensures IsCeilSqrt(n, r)
    decreases n - k
  {
    if k * k >= n then k
    else
      assert k <= k * k;
      CeilSqrtFrom(n, k + 1)
  }

  /** `ceilf(sqrtf(n))`, taken exactly. */
  function CeilSqrt(n: nat): (r: nat)
    ensures IsCeilSqrt(n, r)
    ensures n > 0 ==> r > 0
  {
    CeilSqrtFrom(n, 0)
  }

  /** Squares keep the order of naturals. */
  lemma SquareMonotone(a: nat, b: nat)
    requires a <= b
    ensures a * a <= b * b
  {
    assert a * a <= a * b;
  }

  /** There is only one ceiling square root, so a perfect square gives back its root. */
  lemma {:induction false} CeilSqrtUnique(n: nat, r: nat, s: nat)
    requires IsCeilSqrt(n, r) && IsCeilSqrt(n, s)
    ensures r == s
  {
    if r < s {
      SquareMonotone(r, s - 1);
    } else if s < r {
      SquareMonotone(s, r - 1);
    }
  }

  lemma CeilSqrtOfSquare(m: nat)
    ensures CeilSqrt(m * m) == m
  {
    if m > 0 {
      SquareMonotone(m - 1, m);
      assert (m - 1) * (m - 1) < m * m;
    }
    CeilSqrtUnique(m * m, CeilSqrt(m * m), m);
  }

  /** `ceilf((float) n / (float) d)` for a positive d, taken exactly. */
  function CeilDiv(n: nat, d: nat): (r: nat)
    requires d > 0
    ensures r * d >= n
    ensures r == 0 || (r - 1) * d < n
  {
    var q := (n + d - 1) / d;
    assert q * d + (n + d - 1) % d == n + d - 1;
    q
  }

  /** The grid of `getTexture` for n records: ceil(sqrt(n)) columns and as many rows as needed. */
  function Columns(n: nat): nat {
    CeilSqrt(n)
  }

  function Rows(n: nat): nat
    requires n > 0
  {
    CeilDiv(n, Columns(n))
  }

  /**
   * For a positive count the grid holds every record, is no taller than it
   * is wide, and wastes less than one row.
   */
  lemma GridFits(n: nat)
    requires n > 0
    ensures Columns(n) > 0
    ensures Columns(n) * Rows(n) >= n
    ensures Rows(n) <= Columns(n)
    ensures Columns(n) * Rows(n) < n + Columns(n)
  {
    var c, r := Columns(n), Rows(n);
    assert r * c >= n && (r == 0 || (r - 1) * c < n);
    assert c * c >= n;
    if r > 0 {
      assert (r - 1) * c == r * c - c;
    }
  }

  // ---------------------------------------------------------------------------
  // The vertex record

  /**
   * Slot k of the 8-float record of vertex v: the position scaled by 0.04
   * with y lowered by 0.2, then the normal, then the texture coordinates.
   */
  function Slot(v: Vertex, k: nat): real
    requires k < 8
  {
    if k == 0 then 0.04 * v.Position.x
    else if k == 1 then 0.04 * v.Position.y - 0.2
    else if k == 2 then 0.04 * v.Position.z
    else if k == 3 then v.Normal.x
    else if k == 4 then v.Normal.y
    else if k == 5 then v.Normal.z
    else if k == 6 then v.TexCoords.x
    else v.TexCoords.y
  }

  /** The record of a vertex as a sequence of its eight slots. */
  function Record(v: Vertex): (rec: seq<real>)
    ensures |rec| == 8
  {
    seq(8, k requires 0 <= k < 8 => Slot(v, k))
  }

  /** How a reader of the vertex texture recovers the vertex from its record. */
  function Unrecord(rec: seq<real>): Vertex
    requires |rec| == 8
  {
    Vertex(Vec3(rec[0] / 0.04, (rec[1] + 0.2) / 0.04, rec[2] / 0.04),
           Vec3(rec[3], rec[4], rec[5]),
           Vec2(rec[6], rec[7]))
  }

  /** The record loses nothing: the vertex can be read back from it exactly. */
  lemma RecordRoundTrip(v: Vertex)
    ensures Unrecord(Record(v)) == v
  {
    var rec := Record(v);
    assert rec[0] == 0.04 * v.Position.x && rec[1] == 0.04 * v.Position.y - 0.2 && rec[2] == 0.04 * v.Position.z;
    assert rec[3] == v.Normal.x && rec[4] == v.Normal.y && rec[5] == v.Normal.z;
    assert rec[6] == v.TexCoords.x && rec[7] == v.TexCoords.y;
  }

  // ---------------------------------------------------------------------------
  // The packing loops

  /** The counting loop: the totals are the sums of the per-mesh sizes. */
  method CountSizes(data: seq<Mesh>) returns (dataSizeV: nat, dataSizeF: nat)
    ensures dataSizeV == VertexCount(data) == |AllVertices(data)|
    ensures dataSizeF == IndexCount(data) == |AllIndices(data)|
  {
    dataSizeV, dataSizeF := 0, 0;
    for i := 0 to |data|
      invariant dataSizeV == VertexCount(data[..i]) && dataSizeF == IndexCount(data[..i])
    {
      PrefixStep(data, i);
      dataSizeV := dataSizeV + |data[i].vertices|;
      dataSizeF := dataSizeF + |data[i].indices|;
    }
    assert data[..|data|] == data;
    CountsAreLengths(data);
  }

  /** One pass of the inner vertex loop: the eight slots of record `at`, nothing else. */
  method WriteRecord(vertexArray: array<real>, at: nat, v: Vertex)
    requires 8 * at + 8 <= vertexArray.Length
    modifies vertexArray
    ensures forall k :: 0 <= k < 8 ==> vertexArray[8 * at + k] == Slot(v, k)
    ensures forall p :: 0 <= p < vertexArray.Length && (p < 8 * at || 8 * at + 8 <= p) ==>
      vertexArray[p] == old(vertexArray[p])
  {
    vertexArray[at * 8 + 0] := 0.04 * v.Position.x;
    vertexArray[at * 8 + 1] := 0.04 * v.Position.y - 0.2;
    vertexArray[at * 8 + 2] := 0.04 * v.Position.z;

    vertexArray[at * 8 + 3] := v.Normal.x;
    vertexArray[at * 8 + 4] := v.Normal.y;
    vertexArray[at * 8 + 5] := v.Normal.z;

    vertexArray[at * 8 + 6] := v.TexCoords.x;
    vertexArray[at * 8 + 7] := v.TexCoords.y;
  }

  /**
   * The two buffers and the fill loops: `vIndex` and `fIndex` run over all
   * meshes in order, every vertex becomes one record and every index one
   * float. The buffers are sized for `vertexCells` records and `faceCells`
   * indices; slots past the written ones are left unspecified.
   */
  method PackArrays(data: seq<Mesh>, vertexCells: nat, faceCells: nat)
    returns (vertexArray: array<real>, faceArray: array<real>, vIndex: nat, fIndex: nat)
    requires VertexCount(data) <= vertexCells && IndexCount(data) <= faceCells
    ensures vertexArray.Length == 8 * vertexCells && faceArray.Length == faceCells
    ensures vIndex == VertexCount(data) == |AllVertices(data)|
    ensures fIndex == IndexCount(data) == |AllIndices(data)|
    ensures forall r, k :: 0 <= r < vIndex && 0 <= k < 8 ==> vertexArray[8 * r + k] == Slot(AllVertices(data)[r], k)
    ensures forall q :: 0 <= q < fIndex ==> faceArray[q] == AllIndices(data)[q] as real
  {
    CountsAreLengths(data);
    vertexArray := new real[8 * vertexCells](_ => 0.0);
    faceArray := new real[faceCells](_ => 0.0);
    vIndex, fIndex := 0, 0;
    for i := 0 to |data|
      invariant vIndex == VertexCount(data[..i]) <= |AllVertices(data)|
      invariant fIndex == IndexCount(data[..i]) <= |AllIndices(data)|
      invariant forall r, k :: 0 <= r < vIndex && 0 <= k < 8 ==>
        vertexArray[8 * r + k] == Slot(AllVertices(data)[r], k)
      invariant forall q :: 0 <= q < fIndex ==> faceArray[q] == AllIndices(data)[q] as real
    {
      PrefixStep(data, i);
      vIndex := PackMeshVertices(vertexArray, data, i, vIndex);
      fIndex := PackMeshIndices(faceArray, data, i, fIndex);
    }
    assert data[..|data|] == data;
  }

  /** The inner vertex loop for mesh m: its records follow those of the meshes before it. */
  method PackMeshVertices(vertexArray: array<real>, data: seq<Mesh>, m: nat, start: nat) returns (vIndex: nat)
    requires m < |data| && start == VertexCount(data[..m]) <= |AllVertices(data)|
    requires 8 * |AllVertices(data)| <= vertexArray.Length
    requires forall r, k :: 0 <= r < start && 0 <= k < 8 ==> vertexArray[8 * r + k] == Slot(AllVertices(data)[r], k)
    modifies vertexArray
    ensures vIndex == start + |data[m].vertices| <= |AllVertices(data)|
    ensures forall r, k :: 0 <= r < vIndex && 0 <= k < 8 ==> vertexArray[8 * r + k] == Slot(AllVertices(data)[r], k)
  {
    CountsAreLengths(data);
    PrefixBounded(data, m);
    vIndex := start;
    for j := 0 to |data[m].vertices|
      invariant vIndex == start + j
      invariant forall r, k :: 0 <= r < vIndex && 0 <= k < 8 ==>
        vertexArray[8 * r + k] == Slot(AllVertices(data)[r], k)
    {
      VertexBlock(data, m, j);
      WriteRecord(vertexArray, vIndex, data[m].vertices[j]);
      vIndex := vIndex + 1;
    }
  }

  /** The inner index loop for mesh m: its indices follow those of the meshes before it. */
  method PackMeshIndices(faceArray: array<real>, data: seq<Mesh>, m: nat, start: nat) returns (fIndex: nat)
    requires m < |data| && start == IndexCount(data[..m]) <= |AllIndices(data)|
    requires |AllIndices(data)| <= faceArray.Length
    requires forall q :: 0 <= q < start ==> faceArray[q] == AllIndices(data)[q] as real
    modifies faceArray
    ensures fIndex == start + |data[m].indices| <= |AllIndices(data)|
    ensures forall q :: 0 <= q < fIndex ==> faceArray[q] == AllIndices(data)[q] as real
  {
    CountsAreLengths(data);
    PrefixBounded(data, m);
    fIndex := start;
    for j := 0 to |data[m].indices|
      invariant fIndex == start + j
      invariant forall q :: 0 <= q < fIndex ==> faceArray[q] == AllIndices(data)[q] as real
    {
      IndexBlock(data, m, j);
      faceArray[fIndex] := data[m].indices[j] as real;
      fIndex := fIndex + 1;
    }
  }

  // ---------------------------------------------------------------------------
  // The debug loop

  /** The face-buffer positions the debug loop reads, as written: always 0 to 23. */
  function DebugReadsAsWritten(): (positions: seq<nat>)
    ensures |positions| == 24 && forall t :: 0 <= t < 24 ==> positions[t] == t
  {
    seq(24, t requires 0 <= t < 24 => t)
  }

  /** Every read of a debug loop lies inside a face buffer of `cells` entries. */
  predicate ReadsInBounds(positions: seq<nat>, cells: nat) {
    forall t :: 0 <= t < |positions| ==> positions[t] < cells
  }

  /**
   * A mesh of one triangle has three indices, a 2 x 2 face grid of four
   * cells, and the debug loop as written reads past it (first at position 4).
   */
  lemma DebugReadOverrunsSmallMesh()
    ensures Columns(3) == 2 && Rows(3) == 2
    ensures !ReadsInBounds(DebugReadsAsWritten(), Columns(3) * Rows(3))
    ensures DebugReadsAsWritten()[4] == 4
  {
    assert IsCeilSqrt(3, 2);
    CeilSqrtUnique(3, CeilSqrt(3), 2);
    assert !(DebugReadsAsWritten()[4] < 4);
  }

  /** The evidently intended debug loop: at most 24 positions, never past the buffer. */
  function DebugReads(cells: nat): (positions: seq<nat>)
    ensures |positions| == if cells < 24 then cells else 24
    ensures ReadsInBounds(positions, cells)
    ensures forall t :: 0 <= t < |positions| ==> positions[t] == t
  {
    var count := if cells < 24 then cells else 24;
    seq(count, t requires 0 <= t < count => t)
  }

  /** The bounded loop positions exactly what the loop as written positions whenever the buffer is large enough. */
  lemma DebugReadsAgree(cells: nat)
    ensures cells >= 24 <==> DebugReads(cells) == DebugReadsAsWritten()
    ensures cells >= 24 <==> ReadsInBounds(DebugReadsAsWritten(), cells)
  {
    if cells < 24 {
      assert |DebugReads(cells)| != |DebugReadsAsWritten()|;
      assert !(DebugReadsAsWritten()[cells] < cells);
    }
  }

  // ---------------------------------------------------------------------------
  // The texture object

  class ObjectTexture {
    var vertexTextureId: nat
    var faceTextureId: nat
    var dataSizeV: int
    var dataSizeF: int

    constructor ()
      ensures dataSizeV == 0 && dataSizeF == 0
    {
      vertexTextureId, faceTextureId := 0, 0;
      dataSizeV, dataSizeF := 0, 0;
    }
  }

  /**
   * getTexture: the buffers handed to the two texture uploads, with their
   * texel sizes, and the totals recorded on the texture object. The
   * texture handles GL generates are parameters.
   */
  method GetTexture(data: seq<Mesh>, objTex: ObjectTexture, vertexTextureId: nat, faceTextureId: nat)
    returns (vertexTexels: seq<real>, vertexWidth: nat, vertexHeight: nat,
             faceTexels: seq<real>, faceWidth: nat, faceHeight: nat)
    requires VertexCount(data) > 0 && IndexCount(data) > 0
    modifies objTex
    ensures objTex.dataSizeV == VertexCount(data) && objTex.dataSizeF == IndexCount(data)
    ensures VertexCount(data) == |AllVertices(data)| && IndexCount(data) == |AllIndices(data)|
    ensures objTex.vertexTextureId == vertexTextureId && objTex.faceTextureId == faceTextureId
    ensures vertexWidth == 8 * Columns(VertexCount(data)) && vertexHeight == Rows(VertexCount(data))
    ensures faceWidth == Columns(IndexCount(data)) && faceHeight == Rows(IndexCount(data))
    ensures |vertexTexels| == vertexWidth * vertexHeight && |faceTexels| == faceWidth * faceHeight
    ensures 8 * VertexCount(data) <= |vertexTexels| && IndexCount(data) <= |faceTexels|
    ensures forall r, k :: 0 <= r < VertexCount(data) && 0 <= k < 8 ==>
      vertexTexels[8 * r + k] == Slot(AllVertices(data)[r], k)
    ensures forall q :: 0 <= q < IndexCount(data) ==> faceTexels[q] == AllIndices(data)[q] as real
  {
    var dataSizeV, dataSizeF := CountSizes(data);

    var vertX := Columns(dataSizeV);
    var vertY := Rows(dataSizeV);
    var faceX := Columns(dataSizeF);
    var faceY := Rows(dataSizeF);
    GridFits(dataSizeV);
    GridFits(dataSizeF);

    var vertexArray, faceArray, vIndex, fIndex := PackArrays(data, vertX * vertY, faceX * faceY);

    objTex.dataSizeV := dataSizeV;
    objTex.dataSizeF := dataSizeF;
    objTex.vertexTextureId := vertexTextureId;
    objTex.faceTextureId := faceTextureId;

    vertexWidth, vertexHeight := vertX * 8, vertY;
    faceWidth, faceHeight := faceX, faceY;
    vertexTexels := vertexArray[..];
    faceTexels := faceArray[..];
  }
}
