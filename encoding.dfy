/**
 * The GPU encoding of the scene in src/sources/main.cpp: the node vector is
 * seeded with one test node before the hierarchy builder appends to it, and
 * two indexed loops project every triangle and every node into its fixed
 * layout of 3-float groups.
 *
 * The hierarchy builder (buildBVHwithSAH, BVH.h) is not part of this model:
 * the nodes it appends are an input.
 */
module Encoding {
  import opened Vectors
  import opened Materials
  import opened Triangles

  /** A hierarchy node: child indices, leaf triangle count and start, and the box corners. */
  datatype BVHNode = BVHNode(left: int, right: int, n: int, index: int, AA: Vec3, BB: Vec3)

  /** The four-group GPU layout of a node. */
  datatype BVHNodeEncoded = BVHNodeEncoded(childs: Vec3, leafInfo: Vec3, AA: Vec3, BB: Vec3)

  /**
   * The test node placed at index 0 before the build. Its `index` field is
   * not assigned by the source; the model takes it as 0.
   */
  function SentinelNode(): BVHNode {
    BVHNode(255, 128, 30, 0, Vec3(1.0, 1.0, 0.0), Vec3(0.0, 1.0, 0.0))
  }

  /** Node encoding: childs = (left, right, 0), leafInfo = (n, index, 0), corners copied. */
  function EncodeNode(node: BVHNode): BVHNodeEncoded {
    BVHNodeEncoded(
      Vec3(node.left as real, node.right as real, 0.0),
      Vec3(node.n as real, node.index as real, 0.0),
      node.AA, node.BB)
  }

  /** How a consumer reads a node back from its four groups. */
  function DecodeNode(e: BVHNodeEncoded): BVHNode {
    BVHNode(e.childs.x.Floor, e.childs.y.Floor, e.leafInfo.x.Floor, e.leafInfo.y.Floor, e.AA, e.BB)
  }

  /** Node encoding loses nothing, and the padding coordinates are 0. */
  lemma NodeRoundTrip(node: BVHNode)
    ensures DecodeNode(EncodeNode(node)) == node
    ensures EncodeNode(node).childs.z == 0.0 && EncodeNode(node).leafInfo.z == 0.0
  {
  }

  /** The twelve-group triangle encoding. */
  function EncodeTriangle(t: Triangle): TriangleEncoded {
    var m := t.material;
    TriangleEncoded(
      t.p1, t.p2, t.p3,
      t.n1, t.n2, t.n3,
      m.emissive, m.baseColor,
      Vec3(m.subsurface, m.metallic, m.specular),
      Vec3(m.specularTint, m.roughness, m.anisotropic),
      Vec3(m.sheen, m.sheenTint, m.clearcoat),
      Vec3(m.clearcoatGloss, m.IOR, m.transmission))
  }

  /** The material a consumer reads from the twelve groups; what they do not carry is taken at its default. */
  function DecodeMaterial(e: TriangleEncoded): Material {
    DefaultMaterial().(
      emissive := e.emissive, baseColor := e.baseColor,
      subsurface := e.param1.x, metallic := e.param1.y, specular := e.param1.z,
      specularTint := e.param2.x, roughness := e.param2.y, anisotropic := e.param2.z,
      sheen := e.param3.x, sheenTint := e.param3.y, clearcoat := e.param3.z,
      clearcoatGloss := e.param4.x, IOR := e.param4.y, transmission := e.param4.z)
  }

  function DecodeTriangle(e: TriangleEncoded): Triangle {
    Triangle(e.p1, e.p2, e.p3, e.n1, e.n2, e.n3, DecodeMaterial(e))
  }

  /** The material fields the twelve-group layout does not carry hold their default values. */
  predicate UnencodedAtDefault(m: Material) {
    var d := DefaultMaterial();
    && m.baseColorTexID == d.baseColorTexID && m.metallicRoughnessTexID == d.metallicRoughnessTexID
    && m.normalmapTexID == d.normalmapTexID && m.emissionmapTexID == d.emissionmapTexID
    && m.mediumType == d.mediumType && m.mediumColor == d.mediumColor
    && m.mediumDensity == d.mediumDensity && m.mediumAnisotropy == d.mediumAnisotropy
  }

  /**
   * Decoding an encoded triangle gives back its positions and normals exactly,
   * its colours and all twelve scalars; it gives back the whole triangle
   * exactly when the fields the layout drops were at their defaults.
   */
  lemma TriangleRoundTrip(t: Triangle)
    ensures var d := DecodeTriangle(EncodeTriangle(t));
      && (d.p1, d.p2, d.p3, d.n1, d.n2, d.n3) == (t.p1, t.p2, t.p3, t.n1, t.n2, t.n3)
      && d.material.emissive == t.material.emissive && d.material.baseColor == t.material.baseColor
      && (forall f :: ScalarOf(d.material, f) == ScalarOf(t.material, f))
      && (d == t <==> UnencodedAtDefault(t.material))
  {
    var d := DecodeTriangle(EncodeTriangle(t));
    forall f ensures ScalarOf(d.material, f) == ScalarOf(t.material, f) {
    }
  }

  /** Two triangles encode alike exactly when their geometry, colours and twelve scalars agree. */
  lemma EncodeTriangleDistinguishes(a: Triangle, b: Triangle)
    ensures EncodeTriangle(a) == EncodeTriangle(b) <==>
      && (a.p1, a.p2, a.p3, a.n1, a.n2, a.n3) == (b.p1, b.p2, b.p3, b.n1, b.n2, b.n3)
      && a.material.emissive == b.material.emissive && a.material.baseColor == b.material.baseColor
      && (forall f :: ScalarOf(a.material, f) == ScalarOf(b.material, f))
  {
    if forall f :: ScalarOf(a.material, f) == ScalarOf(b.material, f) {
      assert ScalarOf(a.material, Subsurface) == ScalarOf(b.material, Subsurface);
      assert ScalarOf(a.material, Metallic) == ScalarOf(b.material, Metallic);
      assert ScalarOf(a.material, Specular) == ScalarOf(b.material, Specular);
      assert ScalarOf(a.material, SpecularTint) == ScalarOf(b.material, SpecularTint);
      assert ScalarOf(a.material, Roughness) == ScalarOf(b.material, Roughness);
      assert ScalarOf(a.material, Anisotropic) == ScalarOf(b.material, Anisotropic);
      assert ScalarOf(a.material, Sheen) == ScalarOf(b.material, Sheen);
      assert ScalarOf(a.material, SheenTint) == ScalarOf(b.material, SheenTint);
      assert ScalarOf(a.material, Clearcoat) == ScalarOf(b.material, Clearcoat);
      assert ScalarOf(a.material, ClearcoatGloss) == ScalarOf(b.material, ClearcoatGloss);
      assert ScalarOf(a.material, IndexOfRefraction) == ScalarOf(b.material, IndexOfRefraction);
      assert ScalarOf(a.material, Transmission) == ScalarOf(b.material, Transmission);
    }
    if EncodeTriangle(a) == EncodeTriangle(b) {
      TriangleRoundTrip(a);
      TriangleRoundTrip(b);
    }
  }

  /** The node vector before the build: exactly one element, the test node; the builder's nodes follow it. */
  method SeedNodes(built: seq<BVHNode>) returns (nodes: seq<BVHNode>)
    ensures |nodes| == |built| + 1 && nodes[0] == SentinelNode()
    ensures forall i :: 0 <= i < |built| ==> nodes[i + 1] == built[i]
  {
    nodes := [SentinelNode()];
    nodes := nodes + built;
  }

  /** The triangle encoding loop over a pre-sized vector of `nTriangles` entries. */
  method EncodeTriangles(triangles: seq<Triangle>) returns (encoded: array<TriangleEncoded>)
    ensures encoded.Length == |triangles|
    ensures forall i :: 0 <= i < |triangles| ==> DecodeTriangle(encoded[i]) == DecodeTriangle(EncodeTriangle(triangles[i]))
    ensures forall i :: 0 <= i < |triangles| ==> encoded[i] == EncodeTriangle(triangles[i])
  {
    var nTriangles := |triangles|;
    encoded := new TriangleEncoded[nTriangles];
    for i := 0 to nTriangles
      invariant forall j :: 0 <= j < i ==> encoded[j] == EncodeTriangle(triangles[j])
    {
      var t := triangles[i];
      var m := t.material;
      encoded[i] := encoded[i].(p1 := t.p1, p2 := t.p2, p3 := t.p3);
      encoded[i] := encoded[i].(n1 := t.n1, n2 := t.n2, n3 := t.n3);
      encoded[i] := encoded[i].(emissive := m.emissive, baseColor := m.baseColor);
      encoded[i] := encoded[i].(param1 := Vec3(m.subsurface, m.metallic, m.specular));
      encoded[i] := encoded[i].(param2 := Vec3(m.specularTint, m.roughness, m.anisotropic));
      encoded[i] := encoded[i].(param3 := Vec3(m.sheen, m.sheenTint, m.clearcoat));
      encoded[i] := encoded[i].(param4 := Vec3(m.clearcoatGloss, m.IOR, m.transmission));
    }
  }

  /** The node encoding loop over a pre-sized vector of `nNodes` entries. */
  method EncodeNodes(nodes: seq<BVHNode>) returns (encoded: array<BVHNodeEncoded>)
    ensures encoded.Length == |nodes|
    ensures forall i :: 0 <= i < |nodes| ==> DecodeNode(encoded[i]) == nodes[i]
    ensures forall i :: 0 <= i < |nodes| ==> encoded[i] == EncodeNode(nodes[i])
  {
    var nNodes := |nodes|;
    encoded := new BVHNodeEncoded[nNodes];
    for i := 0 to nNodes
      invariant forall j :: 0 <= j < i ==> encoded[j] == EncodeNode(nodes[j])
    {
      encoded[i] := encoded[i].(childs := Vec3(nodes[i].left as real, nodes[i].right as real, 0.0));
      encoded[i] := encoded[i].(leafInfo := Vec3(nodes[i].n as real, nodes[i].index as real, 0.0));
      encoded[i] := encoded[i].(AA := nodes[i].AA);
      encoded[i] := encoded[i].(BB := nodes[i].BB);
    }
    forall i | 0 <= i < nNodes ensures DecodeNode(encoded[i]) == nodes[i] {
      NodeRoundTrip(nodes[i]);
    }
  }

  /**
   * The scene set-up of main.cpp after loading: count the triangles, seed the
   * node vector, let the builder append, then encode both vectors.
   */
  method EncodeScene(triangles: seq<Triangle>, built: seq<BVHNode>)
    returns (nTriangles: nat, nNodes: nat, trianglesEncoded: array<TriangleEncoded>, nodesEncoded: array<BVHNodeEncoded>)
    ensures nTriangles == |triangles| == trianglesEncoded.Length
    ensures nNodes == |built| + 1 == nodesEncoded.Length
    ensures forall i :: 0 <= i < nTriangles ==> trianglesEncoded[i] == EncodeTriangle(triangles[i])
    ensures nodesEncoded[0] == EncodeNode(SentinelNode())
    ensures forall i :: 0 <= i < |built| ==> nodesEncoded[i + 1] == EncodeNode(built[i])
  {
    nTriangles := |triangles|;
    var nodes := SeedNodes(built);
    nNodes := |nodes|;
    trianglesEncoded := EncodeTriangles(triangles);
    nodesEncoded := EncodeNodes(nodes);
  }
}
