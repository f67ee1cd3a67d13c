/**
 * The built-in scene of src/core/Scene.h: nine named materials, five model
 * slots of which only the active ones contribute triangles, and the
 * start-up sequence that loads materials, then meshes, then counts the
 * triangles, then encodes them with the fourteen-group layout that also
 * carries the participating-medium fields.
 *
 * Model files and the placement matrices built by getTransformMatrix are
 * inputs (`PlacedModel`); the environment map loader and all GL uploads are
 * not part of this model.
 */
module Scenes {
  import opened Vectors
  import opened Materials
  import opened Meshes
  import opened Triangles
  import opened Encoding

  /** The fourteen-group layout: the twelve groups of the main program plus the medium colour and parameters. */
  datatype TriangleEncodedExt = TriangleEncodedExt(base: TriangleEncoded, mediumColor: Vec3, param5: Vec3)

  /**
   * The extended triangle encoding: the twelve groups of the main program
   * unchanged, then the medium colour, then
   * param5 = (mediumType, mediumDensity, mediumAnisotropy).
   */
  function EncodeTriangleExt(t: Triangle): (e: TriangleEncodedExt)
    ensures e.base == EncodeTriangle(t)
    ensures DecodeTriangle(e.base) == DecodeTriangle(EncodeTriangle(t))
    ensures e.mediumColor == t.material.mediumColor
    ensures e.param5 == Vec3(t.material.mediumType as real, t.material.mediumDensity, t.material.mediumAnisotropy)
  {
    var m := t.material;
    TriangleEncodedExt(EncodeTriangle(t), m.mediumColor, Vec3(m.mediumType as real, m.mediumDensity, m.mediumAnisotropy))
  }

  /** How a consumer reads a triangle back from the fourteen groups; texture IDs are not carried. */
  function DecodeTriangleExt(e: TriangleEncodedExt): Triangle {
    var t := DecodeTriangle(e.base);
    t.(material := t.material.(
      mediumType := e.param5.x.Floor, mediumColor := e.mediumColor,
      mediumDensity := e.param5.y, mediumAnisotropy := e.param5.z))
  }

  /** The texture IDs, the only material fields neither layout carries, hold their defaults. */
  predicate TexturesAtDefault(m: Material) {
    var d := DefaultMaterial();
    && m.baseColorTexID == d.baseColorTexID && m.metallicRoughnessTexID == d.metallicRoughnessTexID
    && m.normalmapTexID == d.normalmapTexID && m.emissionmapTexID == d.emissionmapTexID
  }

  /**
   * The fourteen-group encoding gives back the twelve-group one exactly in
   * its first twelve groups, and gives back the whole triangle, medium
   * included, exactly when the texture IDs are at their defaults.
   */
  lemma ExtendedRoundTrip(t: Triangle)
    ensures EncodeTriangleExt(t).base == EncodeTriangle(t)
    ensures DecodeTriangleExt(EncodeTriangleExt(t)).material.mediumType == t.material.mediumType
    ensures DecodeTriangleExt(EncodeTriangleExt(t)).material.mediumColor == t.material.mediumColor
    ensures DecodeTriangleExt(EncodeTriangleExt(t)).material.mediumDensity == t.material.mediumDensity
    ensures DecodeTriangleExt(EncodeTriangleExt(t)).material.mediumAnisotropy == t.material.mediumAnisotropy
    ensures DecodeTriangleExt(EncodeTriangleExt(t)) == t <==> TexturesAtDefault(t.material)
  {
    TriangleRoundTrip(t);
    var d := DecodeTriangleExt(EncodeTriangleExt(t));
    if TexturesAtDefault(t.material) {
      MaterialExtensionality(d.material, t.material);
      forall f ensures ScalarOf(d.material, f) == ScalarOf(t.material, f) {
      }
    }
  }

  /** The triangle encoding loop of the scene set-up, over the first `nTriangles` triangles. */
  method EncodeTrianglesExt(triangles: seq<Triangle>, nTriangles: int) returns (encoded: array<TriangleEncodedExt>)
    requires 0 <= nTriangles <= |triangles|
    ensures encoded.Length == nTriangles
    ensures forall i :: 0 <= i < nTriangles ==> encoded[i] == EncodeTriangleExt(triangles[i])
  {
    var zero := Vec3(0.0, 0.0, 0.0);
    var blank := TriangleEncoded(zero, zero, zero, zero, zero, zero, zero, zero, zero, zero, zero, zero);
    encoded := new TriangleEncodedExt[nTriangles](_ => TriangleEncodedExt(blank, zero, zero));
    for i := 0 to nTriangles
      invariant forall j :: 0 <= j < i ==> encoded[j] == EncodeTriangleExt(triangles[j])
    {
      var t := triangles[i];
      var m := t.material;
      var b := encoded[i].base;
      b := b.(p1 := t.p1, p2 := t.p2, p3 := t.p3);
      b := b.(n1 := t.n1, n2 := t.n2, n3 := t.n3);
      b := b.(emissive := m.emissive, baseColor := m.baseColor);
      b := b.(param1 := Vec3(m.subsurface, m.metallic, m.specular));
      b := b.(param2 := Vec3(m.specularTint, m.roughness, m.anisotropic));
      b := b.(param3 := Vec3(m.sheen, m.sheenTint, m.clearcoat));
      b := b.(param4 := Vec3(m.clearcoatGloss, m.IOR, m.transmission));
      encoded[i] := TriangleEncodedExt(b, m.mediumColor, Vec3(m.mediumType as real, m.mediumDensity, m.mediumAnisotropy));
    }
  }

  /** A loaded model: its meshes and the placement matrix built for it. */
  datatype PlacedModel = PlacedModel(meshes: seq<Mesh>, placement: Mat4)

  /** The model slots; `current_game_object` names one of them. */
  datatype GameObject = NoObject | FloorObject | SphereObject | BunnyObject | LoongObject | PantherObject

  /** What one model slot contributes: its assembled triangles when active, nothing otherwise. */
  function Contribution(active: bool, model: PlacedModel, material: Material, smoothNormal: bool,
                        normalize: Vec3 -> Vec3): (r: seq<Triangle>)
    requires WellFormed(model.meshes)
    ensures |r| == if active then |AllIndices(model.meshes)| / 3 else 0
    ensures forall i :: 0 <= i < |r| ==> r[i].material == material
  {
    if active then
      var r := Assembled(model.meshes, material, model.placement, smoothNormal, normalize);
      AssembledMaterial(model.meshes, material, model.placement, smoothNormal, normalize);
      assert forall i :: 0 <= i < |r| ==> r[i] in r;
      r
    else []
  }

  /**
   * The triangles of the built-in scene in load order: floor (flat, plane
   * material), bunny (flat), sphere, loong and panther (smooth), the last
   * four with the current material.
   */
  function SceneTriangles(floor: PlacedModel, bunny: PlacedModel, sphere: PlacedModel, loong: PlacedModel,
                          panther: PlacedModel, floorActive: bool, bunnyActive: bool, sphereActive: bool,
                          loongActive: bool, pantherActive: bool, plane: Material, current: Material,
                          normalize: Vec3 -> Vec3): seq<Triangle>
    requires WellFormed(floor.meshes) && WellFormed(bunny.meshes) && WellFormed(sphere.meshes)
    requires WellFormed(loong.meshes) && WellFormed(panther.meshes)
  {
    Contribution(floorActive, floor, plane, false, normalize)
    + Contribution(bunnyActive, bunny, current, false, normalize)
    + Contribution(sphereActive, sphere, current, true, normalize)
    + Contribution(loongActive, loong, current, true, normalize)
    + Contribution(pantherActive, panther, current, true, normalize)
  }

  /**
   * The floor goes first: its triangles occupy the lowest indices and carry
   * the plane material; every triangle after them carries the current
   * material.
   */
  lemma {:induction false} FloorComesFirst(floor: PlacedModel, bunny: PlacedModel, sphere: PlacedModel,
                                           loong: PlacedModel, panther: PlacedModel, floorActive: bool,
                                           bunnyActive: bool, sphereActive: bool, loongActive: bool,
                                           pantherActive: bool, plane: Material, current: Material,
                                           normalize: Vec3 -> Vec3)
    requires WellFormed(floor.meshes) && WellFormed(bunny.meshes) && WellFormed(sphere.meshes)
    requires WellFormed(loong.meshes) && WellFormed(panther.meshes)
    ensures var all := SceneTriangles(floor, bunny, sphere, loong, panther, floorActive, bunnyActive,
                                      sphereActive, loongActive, pantherActive, plane, current, normalize);
      var floorPart := Contribution(floorActive, floor, plane, false, normalize);
      && |floorPart| <= |all|
      && all[..|floorPart|] == floorPart
      && (forall i :: 0 <= i < |floorPart| ==> all[i].material == plane)
      && (forall i :: |floorPart| <= i < |all| ==> all[i].material == current)
  {
    var floorPart := Contribution(floorActive, floor, plane, false, normalize);
    var bunnyPart := Contribution(bunnyActive, bunny, current, false, normalize);
    var spherePart := Contribution(sphereActive, sphere, current, true, normalize);
    var loongPart := Contribution(loongActive, loong, current, true, normalize);
    var pantherPart := Contribution(pantherActive, panther, current, true, normalize);
    SameMaterialAppend(bunnyPart, spherePart, current);
    SameMaterialAppend(bunnyPart + spherePart, loongPart, current);
    SameMaterialAppend(bunnyPart + spherePart + loongPart, pantherPart, current);
    var rest := bunnyPart + spherePart + loongPart + pantherPart;
    AppendAssociates(floorPart, bunnyPart, spherePart);
    AppendAssociates(floorPart, bunnyPart + spherePart, loongPart);
    AppendAssociates(floorPart, bunnyPart + spherePart + loongPart, pantherPart);
    SplitMaterials(floorPart, rest, plane, current);
  }

  /** Two blocks of m-triangles make one. */
  lemma SameMaterialAppend(front: seq<Triangle>, back: seq<Triangle>, m: Material)
    requires forall i :: 0 <= i < |front| ==> front[i].material == m
    requires forall i :: 0 <= i < |back| ==> back[i].material == m
    ensures forall i :: 0 <= i < |front + back| ==> (front + back)[i].material == m
  {
  }

  /** A sequence made of a block of a-triangles followed by a block of b-triangles. */
  lemma SplitMaterials(front: seq<Triangle>, back: seq<Triangle>, a: Material, b: Material)
    requires forall i :: 0 <= i < |front| ==> front[i].material == a
    requires forall i :: 0 <= i < |back| ==> back[i].material == b
    ensures (front + back)[..|front|] == front
    ensures forall i :: 0 <= i < |front| ==> (front + back)[i].material == a
    ensures forall i :: |front| <= i < |front + back| ==> (front + back)[i].material == b
  {
  }

  lemma AppendAssociates(a: seq<Triangle>, b: seq<Triangle>, c: seq<Triangle>)
    ensures a + b + c == a + (b + c)
  {
  }

  /** One `if (go.active) getTriangle(...)` step of the mesh loading. */
  method LoadSlot(store: TriangleStore, active: bool, model: PlacedModel, material: Material, smoothNormal: bool,
                  normalize: Vec3 -> Vec3)
    requires WellFormed(model.meshes)
    modifies store
    ensures store.triangles == old(store.triangles) + Contribution(active, model, material, smoothNormal, normalize)
  {
    if active {
      GetTriangle(model.meshes, store, material, model.placement, smoothNormal, normalize);
    }
  }

  // The built-in material constants, each assigned over the current value of its global.

  /** The settings of the floor. */
  function PlaneSettings(m: Material): Material {
    m.(baseColor := Vec3(0.73, 0.73, 0.73), specular := 1.0, IOR := 1.79, metallic := 0.2)
  }

  /** The settings of white. */
  function WhiteSettings(m: Material): Material {
    m.(baseColor := Vec3(0.73, 0.73, 0.73), roughness := 0.5, specular := 0.5)
  }

  /** The settings of jade. */
  function JadeSettings(m: Material): Material {
    m.(baseColor := Vec3(0.55, 0.78, 0.55), specular := 1.0, IOR := 1.79, subsurface := 1.0)
  }

  /** The settings of golden. */
  function GoldenSettings(m: Material): Material {
    m.(baseColor := Vec3(0.75, 0.7, 0.15), roughness := 0.05, specular := 1.0, metallic := 1.0)
  }

  /** The settings of copper. */
  function CopperSettings(m: Material): Material {
    m.(baseColor := Vec3(238.0 / 255.0, 158.0 / 255.0, 137.0 / 255.0),
        roughness := 0.2, specular := 1.0, IOR := 1.21901, metallic := 1.0)
  }

  /** The settings of clear glass. */
  function GlassSettings(m: Material): Material {
    m.(baseColor := Vec3(1.0, 1.0, 1.0), specular := 1.0, transmission := 1.0, IOR := 1.5, roughness := 0.02)
  }

  /** The settings of brown glass with an absorbing medium. */
  function BrownGlassSettings(m: Material): Material {
    m.(baseColor := Vec3(1.0, 1.0, 1.0), mediumType := 1, mediumColor := Vec3(0.905, 0.63, 0.3),
        mediumDensity := 1.0, specular := 1.0, transmission := 0.957, IOR := 1.45, roughness := 0.1)
  }

  /** The settings of tear glass with an absorbing medium. */
  function TearGlassSettings(m: Material): Material {
    m.(baseColor := Vec3(1.0, 1.0, 1.0), mediumColor := Vec3(0.085, 0.917, 0.848),
        mediumDensity := 1.0, mediumType := 1, specular := 1.0, transmission := 0.917, IOR := 1.45)
  }

  /** The settings of tear glass with an emissive medium. */
  function TearGlassEmissiveSettings(m: Material): Material {
    m.(baseColor := Vec3(1.0, 1.0, 1.0), mediumColor := Vec3(0.085, 0.917, 0.848),
        mediumDensity := 0.25, mediumType := 3, specular := 1.0, transmission := 0.917, IOR := 1.45)
  }

  /** The globals of the built-in scene. */
  class Scene {
    var plane: Material
    var white: Material
    var jade: Material
    var golden: Material
    var copper: Material
    var glass: Material
    var brownGlass: Material
    var tearGlass: Material
    var tearGlassEmissive: Material
    var currentMaterial: Material

    var floorActive: bool
    var sphereActive: bool
    var bunnyActive: bool
    var loongActive: bool
    var pantherActive: bool
    var currentGameObject: GameObject

    const store: TriangleStore
    const panel: MaterialPanel
    var nTriangles: int
    var nodes: seq<BVHNode>
    var nNodes: int
    var nodesEncoded: seq<BVHNodeEncoded>
    var trianglesEncoded: seq<TriangleEncodedExt>

    ghost predicate Valid()
      reads this, panel
    {
      panel.Valid()
    }

    /** The medium type codes of the nine built-in materials, in declaration order. */
    function MediumTypes(): seq<int>
      reads this`plane, this`white, this`jade, this`golden, this`copper
      reads this`glass, this`brownGlass, this`tearGlass, this`tearGlassEmissive
    {
      [plane.mediumType, white.mediumType, jade.mediumType, golden.mediumType, copper.mediumType,
       glass.mediumType, brownGlass.mediumType, tearGlass.mediumType, tearGlassEmissive.mediumType]
    }

    /** The program start: default-constructed globals, no triangles, inactive slots. */
    constructor ()
      ensures Valid() && fresh(store) && fresh(panel) && fresh(panel.baseColor) && fresh(panel.emissive)
      ensures store.triangles == []
      ensures MediumTypes() == [0, 0, 0, 0, 0, 0, 0, 0, 0]
      ensures !floorActive && !sphereActive && !bunnyActive && !loongActive && !pantherActive
    {
      var d := DefaultMaterial();
      plane, white, jade, golden, copper := d, d, d, d, d;
      glass, brownGlass, tearGlass, tearGlassEmissive := d, d, d, d;
      currentMaterial := d;
      floorActive, sphereActive, bunnyActive, loongActive, pantherActive := false, false, false, false, false;
      currentGameObject := NoObject;
      store := new TriangleStore();
      panel := new MaterialPanel();
      nTriangles, nNodes := 0, 0;
      nodes, nodesEncoded, trianglesEncoded := [], [], [];
    }

    /** Assigns the built-in material constants over the current values. */
    method InitMaterial()
      modifies this`plane, this`white, this`jade, this`golden, this`copper
      modifies this`glass, this`brownGlass, this`tearGlass, this`tearGlassEmissive
      ensures plane == PlaneSettings(old(plane)) && white == WhiteSettings(old(white))
      ensures jade == JadeSettings(old(jade)) && golden == GoldenSettings(old(golden))
      ensures copper == CopperSettings(old(copper)) && glass == GlassSettings(old(glass))
      ensures brownGlass == BrownGlassSettings(old(brownGlass)) && tearGlass == TearGlassSettings(old(tearGlass))
      ensures tearGlassEmissive == TearGlassEmissiveSettings(old(tearGlassEmissive))
      ensures MediumTypes() == old(MediumTypes())[..6] + [1, 1, 3]
    {
      InitSurfaceMaterials();
      InitGlassMaterials();
    }

    /** The first part of InitMaterial: the five opaque materials. */
    method InitSurfaceMaterials()
      modifies this`plane, this`white, this`jade, this`golden, this`copper
      ensures plane == PlaneSettings(old(plane)) && white == WhiteSettings(old(white))
      ensures jade == JadeSettings(old(jade)) && golden == GoldenSettings(old(golden))
      ensures copper == CopperSettings(old(copper))
      ensures MediumTypes()[..5] == old(MediumTypes())[..5]
    {
      plane := PlaneSettings(plane);
      white := WhiteSettings(white);
      jade := JadeSettings(jade);
      golden := GoldenSettings(golden);
      copper := CopperSettings(copper);
    }

    /** The second part of InitMaterial: the four transmissive materials, three of them with a medium. */
    method InitGlassMaterials()
      modifies this`glass, this`brownGlass, this`tearGlass, this`tearGlassEmissive
      ensures glass == GlassSettings(old(glass)) && brownGlass == BrownGlassSettings(old(brownGlass))
      ensures tearGlass == TearGlassSettings(old(tearGlass))
      ensures tearGlassEmissive == TearGlassEmissiveSettings(old(tearGlassEmissive))
    {
      glass := GlassSettings(glass);
      brownGlass := BrownGlassSettings(brownGlass);
      tearGlass := TearGlassSettings(tearGlass);
      tearGlassEmissive := TearGlassEmissiveSettings(tearGlassEmissive);
    }

    /**
     * Activates the floor and the loong, then appends the triangles of every
     * active slot in the fixed order floor, bunny, sphere, loong, panther.
     */
    method InitMesh(floor: PlacedModel, bunny: PlacedModel, sphere: PlacedModel, loong: PlacedModel,
                    panther: PlacedModel, normalize: Vec3 -> Vec3)
      requires WellFormed(floor.meshes) && WellFormed(bunny.meshes) && WellFormed(sphere.meshes)
      requires WellFormed(loong.meshes) && WellFormed(panther.meshes)
      modifies this`floorActive, this`loongActive, store
      ensures floorActive && loongActive
      ensures store.triangles == old(store.triangles) +
        SceneTriangles(floor, bunny, sphere, loong, panther, true, bunnyActive, sphereActive, true,
                       pantherActive, plane, currentMaterial, normalize)
    {
      floorActive := true;
      loongActive := true;

      ghost var before := store.triangles;
      ghost var floorPart := Contribution(floorActive, floor, plane, false, normalize);
      ghost var bunnyPart := Contribution(bunnyActive, bunny, currentMaterial, false, normalize);
      ghost var spherePart := Contribution(sphereActive, sphere, currentMaterial, true, normalize);
      ghost var loongPart := Contribution(loongActive, loong, currentMaterial, true, normalize);
      ghost var pantherPart := Contribution(pantherActive, panther, currentMaterial, true, normalize);

      LoadSlot(store, floorActive, floor, plane, false, normalize);
      LoadSlot(store, bunnyActive, bunny, currentMaterial, false, normalize);
      AppendAssociates(before, floorPart, bunnyPart);
      LoadSlot(store, sphereActive, sphere, currentMaterial, true, normalize);
      AppendAssociates(before, floorPart + bunnyPart, spherePart);
      LoadSlot(store, loongActive, loong, currentMaterial, true, normalize);
      AppendAssociates(before, floorPart + bunnyPart + spherePart, loongPart);
      LoadSlot(store, pantherActive, panther, currentMaterial, true, normalize);
      AppendAssociates(before, floorPart + bunnyPart + spherePart + loongPart, pantherPart);
    }

    /**
     * Seeds the node vector with the test node, appends the builder's nodes,
     * and encodes the nodes and the first `nTriangles` triangles.
     */
    method EncodedBVHandTriangles(built: seq<BVHNode>)
      requires 0 <= nTriangles <= |store.triangles|
      modifies this`nodes, this`nNodes, this`nodesEncoded, this`trianglesEncoded
      ensures nodes == [SentinelNode()] + built && nNodes == |nodes|
      ensures |nodesEncoded| == nNodes && forall i :: 0 <= i < nNodes ==> nodesEncoded[i] == EncodeNode(nodes[i])
      ensures |trianglesEncoded| == nTriangles
      ensures forall i :: 0 <= i < nTriangles ==> trianglesEncoded[i] == EncodeTriangleExt(store.triangles[i])
    {
      var seeded := SeedNodes(built);
      nodes := seeded;
      nNodes := |nodes|;
      var ne := EncodeNodes(nodes);
      nodesEncoded := ne[..];
      var te := EncodeTrianglesExt(store.triangles, nTriangles);
      trianglesEncoded := te[..];
    }

    /** The encoding half of the start-up sequence: the triangle count, then the encoding. */
    method CountAndEncode(built: seq<BVHNode>)
      modifies this`nTriangles, this`nodes, this`nNodes, this`nodesEncoded, this`trianglesEncoded
      ensures nTriangles == |store.triangles| == |trianglesEncoded|
      ensures forall i :: 0 <= i < nTriangles ==> trianglesEncoded[i] == EncodeTriangleExt(store.triangles[i])
      ensures nNodes == |built| + 1 == |nodesEncoded| && nodesEncoded[0] == EncodeNode(SentinelNode())
      ensures forall i :: 0 <= i < |built| ==> nodesEncoded[i + 1] == EncodeNode(built[i])
    {
      nTriangles := |store.triangles|;
      EncodedBVHandTriangles(built);
      assert forall i :: 0 <= i < |built| ==> nodes[i + 1] == built[i];
    }

    /**
     * The material half of the start-up sequence: the built-in materials,
     * then the tear glass made current and mirrored into the panel.
     */
    method LoadMaterials()
      requires Valid()
      modifies this`plane, this`white, this`jade, this`golden, this`copper
      modifies this`glass, this`brownGlass, this`tearGlass, this`tearGlassEmissive
      modifies this`currentMaterial, panel, panel.baseColor, panel.emissive
      ensures Valid() && panel.Shows(tearGlass)
      ensures currentMaterial == tearGlass && currentMaterial.mediumType == 1
      ensures plane == PlaneSettings(old(plane)) && tearGlass == TearGlassSettings(old(tearGlass))
      ensures MediumTypes() == old(MediumTypes())[..6] + [1, 1, 3]
    {
      InitMaterial();

      currentMaterial := tearGlass;
      panel.SetGlobalMaterialProperty(currentMaterial);
    }

    /**
     * The loading part of the start-up sequence: materials, the current
     * material, then the meshes with the loong selected.
     */
    method LoadScene(floor: PlacedModel, bunny: PlacedModel, sphere: PlacedModel, loong: PlacedModel,
                     panther: PlacedModel, normalize: Vec3 -> Vec3)
      requires Valid()
      requires WellFormed(floor.meshes) && WellFormed(bunny.meshes) && WellFormed(sphere.meshes)
      requires WellFormed(loong.meshes) && WellFormed(panther.meshes)
      modifies this`plane, this`white, this`jade, this`golden, this`copper
      modifies this`glass, this`brownGlass, this`tearGlass, this`tearGlassEmissive
      modifies this`currentMaterial, this`floorActive, this`loongActive, this`currentGameObject
      modifies store, panel, panel.baseColor, panel.emissive
      ensures Valid() && panel.Shows(tearGlass)
      ensures currentMaterial == tearGlass
      ensures plane == PlaneSettings(old(plane)) && tearGlass == TearGlassSettings(old(tearGlass))
      ensures MediumTypes() == old(MediumTypes())[..6] + [1, 1, 3]
      ensures currentGameObject == LoongObject && floorActive && loongActive
      ensures bunnyActive == old(bunnyActive) && sphereActive == old(sphereActive) && pantherActive == old(pantherActive)
      ensures store.triangles == old(store.triangles) +
        SceneTriangles(floor, bunny, sphere, loong, panther, true, bunnyActive, sphereActive, true,
                       pantherActive, plane, tearGlass, normalize)
    {
      LoadMaterials();
      InitMesh(floor, bunny, sphere, loong, panther, normalize);
      currentGameObject := LoongObject;
    }

    /**
     * The start-up sequence: loading, the triangle count, then the encoding,
     * which therefore sees every loaded triangle. The environment map is
     * loaded in between and is not part of this model.
     */
    method InitScene(floor: PlacedModel, bunny: PlacedModel, sphere: PlacedModel, loong: PlacedModel,
                     panther: PlacedModel, normalize: Vec3 -> Vec3, built: seq<BVHNode>)
      requires Valid()
      requires WellFormed(floor.meshes) && WellFormed(bunny.meshes) && WellFormed(sphere.meshes)
      requires WellFormed(loong.meshes) && WellFormed(panther.meshes)
      modifies this`plane, this`white, this`jade, this`golden, this`copper
      modifies this`glass, this`brownGlass, this`tearGlass, this`tearGlassEmissive
      modifies this`currentMaterial, this`floorActive, this`loongActive, this`currentGameObject
      modifies this`nTriangles, this`nodes, this`nNodes, this`nodesEncoded, this`trianglesEncoded
      modifies store, panel, panel.baseColor, panel.emissive
      ensures Valid() && panel.Shows(tearGlass)
      ensures currentMaterial == tearGlass
      ensures plane == PlaneSettings(old(plane)) && tearGlass == TearGlassSettings(old(tearGlass))
      ensures MediumTypes() == old(MediumTypes())[..6] + [1, 1, 3]
      ensures currentGameObject == LoongObject && floorActive && loongActive
      ensures bunnyActive == old(bunnyActive) && sphereActive == old(sphereActive) && pantherActive == old(pantherActive)
      ensures store.triangles == old(store.triangles) +
        SceneTriangles(floor, bunny, sphere, loong, panther, true, bunnyActive, sphereActive, true,
                       pantherActive, plane, tearGlass, normalize)
      ensures nTriangles == |store.triangles| == |trianglesEncoded|
      ensures forall i :: 0 <= i < nTriangles ==> trianglesEncoded[i] == EncodeTriangleExt(store.triangles[i])
      ensures nNodes == |built| + 1 == |nodesEncoded| && nodesEncoded[0] == EncodeNode(SentinelNode())
      ensures forall i :: 0 <= i < |built| ==> nodesEncoded[i + 1] == EncodeNode(built[i])
    {
      LoadScene(floor, bunny, sphere, loong, panther, normalize);
      CountAndEncode(built);
    }
  }
}
