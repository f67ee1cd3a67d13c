/**
 * Triangle assembly (src/core/Triangle.h): the mesh vertices are gathered,
 * scaled by the largest extent of a running min/max scan, placed by a point
 * transform, and one triangle per index triple is appended to a growable
 * triangle store, with flat or smooth normals and a copy of the material.
 *
 * The normalisation of a vector needs a square root; it is a parameter
 * (`normalize`) of everything that uses it, so nothing here depends on it.
 */
module Triangles {
  import opened Vectors
  import opened Materials
  import opened Meshes

  datatype Triangle = Triangle(
    p1: Vec3, p2: Vec3, p3: Vec3,
    n1: Vec3, n2: Vec3, n3: Vec3,
    material: Material)

  /** The fixed twelve-group GPU layout declared next to `Triangle`. */
  datatype TriangleEncoded = TriangleEncoded(
    p1: Vec3, p2: Vec3, p3: Vec3,
    n1: Vec3, n2: Vec3, n3: Vec3,
    emissive: Vec3,
    baseColor: Vec3,
    param1: Vec3,
    param2: Vec3,
    param3: Vec3,
    param4: Vec3)

  /** The value a `resize` gives the new slots before the fill loop overwrites them. */
  function DefaultTriangle(): Triangle {
    Triangle(Zero3(), Zero3(), Zero3(), Zero3(), Zero3(), Zero3(), DefaultMaterial())
  }

  // ---------------------------------------------------------------------------
  // The extent scan, as written

  /** Magnitude of the accumulators' starting values (+-11451419.19). */
  const Unset: real := 11451419.19

  datatype Extents = Extents(maxx: real, maxy: real, maxz: real, minx: real, miny: real, minz: real)

  function InitialExtents(): Extents {
    Extents(-Unset, -Unset, -Unset, Unset, Unset, Unset)
  }

  /**
   * One step of the scan as the source writes it: maxx and minx accumulate,
   * but maxy and maxz are recomputed from the NEW maxx, and miny and minz from
   * the new minx, instead of from their own previous values.
   */
  function ScanStep(e: Extents, p: Vec3): Extents {
    var maxx := Max(e.maxx, p.x);
    var minx := Min(e.minx, p.x);
    Extents(maxx, Max(maxx, p.y), Max(maxx, p.z), minx, Min(minx, p.y), Min(minx, p.z))
  }

  /** The accumulators after scanning the positions in order. */
  function ScanExtents(ps: seq<Vec3>): Extents {
    if ps == [] then InitialExtents() else ScanStep(ScanExtents(ps[..|ps| - 1]), ps[|ps| - 1])
  }

  /** `maxaxis`: the largest of the three (as-written) extents. */
  function MaxAxis(e: Extents): real {
    Max(e.maxx - e.minx, Max(e.maxy - e.miny, e.maxz - e.minz))
  }

  /** The largest x coordinate, starting from the accumulator's initial value. */
  function LargestX(ps: seq<Vec3>): real {
    if ps == [] then -Unset else Max(LargestX(ps[..|ps| - 1]), ps[|ps| - 1].x)
  }

  /** The smallest x coordinate, starting from the accumulator's initial value. */
  function SmallestX(ps: seq<Vec3>): real {
    if ps == [] then Unset else Min(SmallestX(ps[..|ps| - 1]), ps[|ps| - 1].x)
  }

  /**
   * What the as-written scan computes: true running extrema in x, while the
   * y and z accumulators end up depending only on the final x extrema and on
   * the LAST position.
   */
  lemma {:induction false} ScanExtentsAsWritten(ps: seq<Vec3>)
    ensures ScanExtents(ps).maxx == LargestX(ps) && ScanExtents(ps).minx == SmallestX(ps)
    ensures |ps| > 0 ==>
      var last := ps[|ps| - 1];
      && ScanExtents(ps).maxy == Max(LargestX(ps), last.y)
      && ScanExtents(ps).maxz == Max(LargestX(ps), last.z)
      && ScanExtents(ps).miny == Min(SmallestX(ps), last.y)
      && ScanExtents(ps).minz == Min(SmallestX(ps), last.z)
  {
    if ps != [] {
      ScanExtentsAsWritten(ps[..|ps| - 1]);
    }
  }

  lemma ScanExtentsSnoc(ps: seq<Vec3>, p: Vec3)
    ensures ScanExtents(ps + [p]) == ScanStep(ScanExtents(ps), p)
  {
    assert (ps + [p])[..|ps|] == ps;
  }

  // ---------------------------------------------------------------------------
  // The intended extent scan

  /** The scan step with each accumulator folded over its own axis. */
  function BoundingStep(e: Extents, p: Vec3): Extents {
    Extents(Max(e.maxx, p.x), Max(e.maxy, p.y), Max(e.maxz, p.z),
            Min(e.minx, p.x), Min(e.miny, p.y), Min(e.minz, p.z))
  }

  function BoundingExtents(ps: seq<Vec3>): Extents {
    if ps == [] then InitialExtents() else BoundingStep(BoundingExtents(ps[..|ps| - 1]), ps[|ps| - 1])
  }

  /** The box of `BoundingExtents` contains every scanned position, on all three axes. */
  lemma {:induction false} BoundingExtentsContain(ps: seq<Vec3>, t: nat)
    requires t < |ps|
    ensures var e := BoundingExtents(ps);
      && e.minx <= ps[t].x <= e.maxx
      && e.miny <= ps[t].y <= e.maxy
      && e.minz <= ps[t].z <= e.maxz
  {
    var front := ps[..|ps| - 1];
    if t < |ps| - 1 {
      BoundingExtentsContain(front, t);
      assert front[t] == ps[t];
    }
  }

  /**
   * The as-written scan loses an earlier vertex's y extent: for the positions
   * (0,5,0) then (0,0,0) it yields maxaxis 0, so the division that follows is
   * a division by zero, where the bounding extents give 5.
   */
  lemma ScanExtentsLosesEarlierY()
    ensures var ps := [Vec3(0.0, 5.0, 0.0), Vec3(0.0, 0.0, 0.0)];
      && ScanExtents(ps).maxy == 0.0 && ps[0].y > ScanExtents(ps).maxy
      && MaxAxis(ScanExtents(ps)) == 0.0
      && MaxAxis(BoundingExtents(ps)) == 5.0
  {
    var ps := [Vec3(0.0, 5.0, 0.0), Vec3(0.0, 0.0, 0.0)];
    assert ps[..1] == [Vec3(0.0, 5.0, 0.0)];
    assert ps[..1][..0] == [];
  }

  // ---------------------------------------------------------------------------
  // Assembly specification

  function Positions(vs: seq<Vertex>): (ps: seq<Vec3>)
    ensures |ps| == |vs|
  {
    seq(|vs|, t requires 0 <= t < |vs| => vs[t].Position)
  }

  function Normals(vs: seq<Vertex>): (ns: seq<Vec3>)
    ensures |ns| == |vs|
  {
    seq(|vs|, t requires 0 <= t < |vs| => vs[t].Normal)
  }

  lemma PositionsNormalsSnoc(vs: seq<Vertex>, v: Vertex)
    ensures Positions(vs + [v]) == Positions(vs) + [v.Position]
    ensures Normals(vs + [v]) == Normals(vs) + [v.Normal]
  {
  }

  /** Every position divided by the same scalar s, then transformed as a point. */
  function Placed(ps: seq<Vec3>, s: real, trans: Mat4): (qs: seq<Vec3>)
    ensures |qs| == |ps|
  {
    seq(|ps|, t requires 0 <= t < |ps| => TransformPoint(trans, DivVec(ps[t], s)))
  }

  /** The index list is whole triples and every index names a gathered vertex. */
  predicate WellFormed(data: seq<Mesh>) {
    var idx := AllIndices(data);
    |idx| % 3 == 0 && forall t :: 0 <= t < |idx| ==> idx[t] < |AllVertices(data)|
  }

  predicate IndicesInRange(idx: seq<nat>, n: nat) {
    forall t :: 0 <= t < |idx| ==> idx[t] < n
  }

  /** The triangle of face k. */
  function FaceTriangle(vs: seq<Vec3>, ns: seq<Vec3>, idx: seq<nat>, k: nat,
                        material: Material, smoothNormal: bool, normalize: Vec3 -> Vec3): Triangle
    requires 3 * k + 2 < |idx| && IndicesInRange(idx, |vs|) && |ns| == |vs|
  {
    var p1, p2, p3 := vs[idx[3 * k]], vs[idx[3 * k + 1]], vs[idx[3 * k + 2]];
    if !smoothNormal then
      var n := normalize(Cross(Sub(p2, p1), Sub(p3, p1)));
      Triangle(p1, p2, p3, n, n, n, material)
    else
      Triangle(p1, p2, p3,
               normalize(ns[idx[3 * k]]), normalize(ns[idx[3 * k + 1]]), normalize(ns[idx[3 * k + 2]]),
               material)
  }

  /** One triangle per index triple, in index order. */
  function Faces(vs: seq<Vec3>, ns: seq<Vec3>, idx: seq<nat>,
                 material: Material, smoothNormal: bool, normalize: Vec3 -> Vec3): (r: seq<Triangle>)
    requires IndicesInRange(idx, |vs|) && |ns| == |vs|
    ensures |r| == |idx| / 3
  {
    seq(|idx| / 3, k requires 0 <= k < |idx| / 3 => FaceTriangle(vs, ns, idx, k, material, smoothNormal, normalize))
  }

  /** The scale every position of `data` is divided by. */
  function ScaleOf(data: seq<Mesh>): real {
    MaxAxis(ScanExtents(Positions(AllVertices(data))))
  }

  /** Vertex v of `data` after scaling and placement. */
  function PlacedVertex(data: seq<Mesh>, trans: Mat4, v: nat): Vec3
    requires v < |AllVertices(data)|
  {
    TransformPoint(trans, DivVec(AllVertices(data)[v].Position, ScaleOf(data)))
  }

  /** The triangles getTriangle appends for `data`. */
  function Assembled(data: seq<Mesh>, material: Material, trans: Mat4, smoothNormal: bool,
                     normalize: Vec3 -> Vec3): (r: seq<Triangle>)
    requires WellFormed(data)
    ensures |r| == |AllIndices(data)| / 3
  {
    var vs := AllVertices(data);
    var ps := Positions(vs);
    Faces(Placed(ps, MaxAxis(ScanExtents(ps)), trans), Normals(vs), AllIndices(data),
          material, smoothNormal, normalize)
  }

  /**
   * Appended triangle k takes its corners from the placed vertices named by
   * the k-th index triple; each corner is the source position divided by the
   * one common scale and then transformed as a point.
   */
  lemma AssembledCorners(data: seq<Mesh>, material: Material, trans: Mat4, smoothNormal: bool,
                         normalize: Vec3 -> Vec3, k: nat)
    requires WellFormed(data) && k < |AllIndices(data)| / 3
    ensures var idx := AllIndices(data);
      && 3 * k + 2 < |idx|
      && Assembled(data, material, trans, smoothNormal, normalize)[k].p1 == PlacedVertex(data, trans, idx[3 * k])
      && Assembled(data, material, trans, smoothNormal, normalize)[k].p2 == PlacedVertex(data, trans, idx[3 * k + 1])
      && Assembled(data, material, trans, smoothNormal, normalize)[k].p3 == PlacedVertex(data, trans, idx[3 * k + 2])
  {
  }

  /** Flat shading: the three normals are one face normal computed from the placed corners. */
  lemma AssembledFlatNormals(data: seq<Mesh>, material: Material, trans: Mat4,
                             normalize: Vec3 -> Vec3, k: nat)
    requires WellFormed(data) && k < |AllIndices(data)| / 3
    ensures var t := Assembled(data, material, trans, false, normalize)[k];
      && t.n1 == t.n2 == t.n3
      && t.n1 == normalize(Cross(Sub(t.p2, t.p1), Sub(t.p3, t.p1)))
  {
  }

  /**
   * Smooth shading: each normal is the normalised mesh normal of its own
   * index, untouched by the scale and by the placement matrix, so two
   * placements give the same normals.
   */
  lemma AssembledSmoothNormals(data: seq<Mesh>, material: Material, trans: Mat4, other: Mat4,
                               normalize: Vec3 -> Vec3, k: nat)
    requires WellFormed(data) && k < |AllIndices(data)| / 3
    ensures var idx := AllIndices(data);
      var t := Assembled(data, material, trans, true, normalize)[k];
      var u := Assembled(data, material, other, true, normalize)[k];
      && 3 * k + 2 < |idx|
      && t.n1 == normalize(AllVertices(data)[idx[3 * k]].Normal)
      && t.n2 == normalize(AllVertices(data)[idx[3 * k + 1]].Normal)
      && t.n3 == normalize(AllVertices(data)[idx[3 * k + 2]].Normal)
      && (t.n1, t.n2, t.n3) == (u.n1, u.n2, u.n3)
  {
  }

  /** Every appended triangle carries a copy of the material argument. */
  lemma AssembledMaterial(data: seq<Mesh>, material: Material, trans: Mat4, smoothNormal: bool,
                          normalize: Vec3 -> Vec3)
    requires WellFormed(data)
    ensures forall t :: t in Assembled(data, material, trans, smoothNormal, normalize) ==> t.material == material
  {
  }

  // ---------------------------------------------------------------------------
  // The store and getTriangle

  /** The growable triangle vector that getTriangle appends to. */
  class TriangleStore {
    var triangles: seq<Triangle>

    constructor ()
      ensures triangles == []
    {
      triangles := [];
    }
  }

  /**
   * The gathering loops of getTriangle: positions, normals and indices of all
   * meshes in order, and the running min/max accumulators over the positions.
   */
  method GatherMeshes(data: seq<Mesh>)
    returns (vertices: seq<Vec3>, normals: seq<Vec3>, indices: seq<nat>, extents: Extents)
    ensures vertices == Positions(AllVertices(data)) && normals == Normals(AllVertices(data))
    ensures indices == AllIndices(data)
    ensures extents == ScanExtents(vertices)
  {
    vertices, normals, indices := [], [], [];

    var maxx, maxy, maxz := -Unset, -Unset, -Unset;
    var minx, miny, minz := Unset, Unset, Unset;

    for i := 0 to |data|
      invariant vertices == Positions(AllVertices(data[..i]))
      invariant normals == Normals(AllVertices(data[..i]))
      invariant indices == AllIndices(data[..i])
      invariant Extents(maxx, maxy, maxz, minx, miny, minz) == ScanExtents(vertices)
    {
      PrefixStep(data, i);
      vertices, normals, maxx, maxy, maxz, minx, miny, minz :=
        GatherVertices(AllVertices(data[..i]), data[i].vertices, vertices, normals,
                       maxx, maxy, maxz, minx, miny, minz);
      for k := 0 to |data[i].indices|
        invariant indices == AllIndices(data[..i]) + data[i].indices[..k]
      {
        assert data[i].indices[..k + 1] == data[i].indices[..k] + [data[i].indices[k]];
        indices := indices + [data[i].indices[k]];
      }
      assert data[i].indices[..|data[i].indices|] == data[i].indices;
    }
    assert data[..|data|] == data;
    extents := Extents(maxx, maxy, maxz, minx, miny, minz);
  }

  /**
   * The inner vertex loop of one mesh: push its positions and normals and
   * fold each position into the (as-written) extent accumulators.
   */
  method GatherVertices(ghost before: seq<Vertex>, vs: seq<Vertex>, vertices: seq<Vec3>, normals: seq<Vec3>,
                        maxx: real, maxy: real, maxz: real, minx: real, miny: real, minz: real)
    returns (vertices': seq<Vec3>, normals': seq<Vec3>,
             maxx': real, maxy': real, maxz': real, minx': real, miny': real, minz': real)
    requires vertices == Positions(before) && normals == Normals(before)
    requires Extents(maxx, maxy, maxz, minx, miny, minz) == ScanExtents(vertices)
    ensures vertices' == Positions(before + vs) && normals' == Normals(before + vs)
    ensures Extents(maxx', maxy', maxz', minx', miny', minz') == ScanExtents(vertices')
  {
    vertices', normals' := vertices, normals;
    maxx', maxy', maxz', minx', miny', minz' := maxx, maxy, maxz, minx, miny, minz;
    for j := 0 to |vs|
      invariant vertices' == Positions(before + vs[..j]) && normals' == Normals(before + vs[..j])
      invariant Extents(maxx', maxy', maxz', minx', miny', minz') == ScanExtents(vertices')
    {
      var v := vs[j];
      assert before + vs[..j + 1] == (before + vs[..j]) + [v];
      PositionsNormalsSnoc(before + vs[..j], v);
      ScanExtentsSnoc(vertices', v.Position);
      vertices' := vertices' + [v.Position];
      normals' := normals' + [v.Normal];
      maxx' := Max(maxx', v.Position.x);
      maxy' := Max(maxx', v.Position.y);
      maxz' := Max(maxx', v.Position.z);
      minx' := Min(minx', v.Position.x);
      miny' := Min(minx', v.Position.y);
      minz' := Min(minx', v.Position.z);
    }
    assert vs[..|vs|] == vs;
  }

  /** The size normalisation loop: every coordinate divided by `maxaxis`. */
  method ScaleVertices(vertices: seq<Vec3>, maxaxis: real) returns (scaled: seq<Vec3>)
    ensures |scaled| == |vertices|
    ensures forall u :: 0 <= u < |vertices| ==> scaled[u] == DivVec(vertices[u], maxaxis)
  {
    scaled := vertices;
    for t := 0 to |scaled|
      invariant |scaled| == |vertices|
      invariant forall u :: 0 <= u < t ==> scaled[u] == DivVec(vertices[u], maxaxis)
      invariant forall u :: t <= u < |vertices| ==> scaled[u] == vertices[u]
    {
      var v := scaled[t];
      scaled := scaled[t := Vec3(Quot(v.x, maxaxis), Quot(v.y, maxaxis), Quot(v.z, maxaxis))];
    }
  }

  /** The placement loop: every vertex multiplied by the matrix with w = 1. */
  method PlaceVertices(vertices: seq<Vec3>, trans: Mat4) returns (placed: seq<Vec3>)
    ensures |placed| == |vertices|
    ensures forall u :: 0 <= u < |vertices| ==> placed[u] == TransformPoint(trans, vertices[u])
  {
    placed := vertices;
    for t := 0 to |placed|
      invariant |placed| == |vertices|
      invariant forall u :: 0 <= u < t ==> placed[u] == TransformPoint(trans, vertices[u])
      invariant forall u :: t <= u < |vertices| ==> placed[u] == vertices[u]
    {
      var v := placed[t];
      var vv := MulVec4(trans, Vec4(v.x, v.y, v.z, 1.0));
      placed := placed[t := Vec3(vv.x, vv.y, vv.z)];
    }
  }

  /**
   * The fill loop: `resize` by one slot per index triple, then set every
   * field of each new slot.
   */
  method AppendFaces(store: TriangleStore, vertices: seq<Vec3>, normals: seq<Vec3>, indices: seq<nat>,
                     material: Material, smoothNormal: bool, normalize: Vec3 -> Vec3)
    requires |indices| % 3 == 0 && IndicesInRange(indices, |vertices|) && |normals| == |vertices|
    modifies store
    ensures store.triangles == old(store.triangles) + Faces(vertices, normals, indices, material, smoothNormal, normalize)
  {
    ghost var faces := Faces(vertices, normals, indices, material, smoothNormal, normalize);
    ghost var count := |indices| / 3;
    var offset := |store.triangles|;
    store.triangles := store.triangles + seq(|indices| / 3, _ => DefaultTriangle());
    var i := 0;
    ghost var k := 0;
    while i < |indices|
      invariant 0 <= k <= count && i == 3 * k && |indices| == 3 * count
      invariant |store.triangles| == offset + count
      invariant forall q :: 0 <= q < offset ==> store.triangles[q] == old(store.triangles)[q]
      invariant forall q :: offset <= q < offset + k ==> store.triangles[q] == faces[q - offset]
    {
      assert i / 3 == k;
      var t := store.triangles[offset + i / 3];

      t := t.(p1 := vertices[indices[i]], p2 := vertices[indices[i + 1]], p3 := vertices[indices[i + 2]]);

      if !smoothNormal {
        var n := normalize(Cross(Sub(t.p2, t.p1), Sub(t.p3, t.p1)));
        t := t.(n1 := n, n2 := n, n3 := n);
      } else {
        t := t.(n1 := normalize(normals[indices[i]]),
                n2 := normalize(normals[indices[i + 1]]),
                n3 := normalize(normals[indices[i + 2]]));
      }

      t := t.(material := material);
      assert t == faces[k];
      store.triangles := store.triangles[offset + i / 3 := t];
      i := i + 3;
      k := k + 1;
    }
    assert store.triangles == old(store.triangles) + faces;
  }

  /**
   * getTriangle: appends the triangles of `data` at the end of the store,
   * leaving every earlier entry as it was.
   */
  method GetTriangle(data: seq<Mesh>, store: TriangleStore, material: Material, trans: Mat4,
                     smoothNormal: bool, normalize: Vec3 -> Vec3)
    requires WellFormed(data)
    modifies store
    ensures store.triangles == old(store.triangles) + Assembled(data, material, trans, smoothNormal, normalize)
  {
    var vertices, normals, indices, e := GatherMeshes(data);
    var maxaxis := Max(e.maxx - e.minx, Max(e.maxy - e.miny, e.maxz - e.minz));
    var scaled := ScaleVertices(vertices, maxaxis);
    var placed := PlaceVertices(scaled, trans);
    assert maxaxis == MaxAxis(ScanExtents(vertices));
    assert placed == Placed(vertices, maxaxis, trans) by {
      forall u | 0 <= u < |vertices| ensures placed[u] == Placed(vertices, maxaxis, trans)[u] { }
    }
    assert IndicesInRange(indices, |placed|);
    AppendFaces(store, placed, normals, indices, material, smoothNormal, normalize);
  }
}
