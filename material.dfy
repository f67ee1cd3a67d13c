/**
 * The physically based material record and the static UI mirror that the
 * material editor widgets read and write (src/core/Material.h).
 */
module Materials {
  import opened Vectors

  /**
   * A material value. The first eighteen fields are the ones src/core/Material.h
   * declares; the four medium fields are the ones src/core/Scene.h assigns and
   * encodes (the Material.h of this snapshot does not declare them).
   */
  datatype Material = Material(
    emissive: Vec3,
    baseColor: Vec3,
    subsurface: real,
    metallic: real,
    specular: real,
    specularTint: real,
    roughness: real,
    anisotropic: real,
    sheen: real,
    sheenTint: real,
    clearcoat: real,
    clearcoatGloss: real,
    IOR: real,
    transmission: real,
    baseColorTexID: real,
    metallicRoughnessTexID: real,
    normalmapTexID: real,
    emissionmapTexID: real,
    mediumType: int,
    mediumColor: Vec3,
    mediumDensity: real,
    mediumAnisotropy: real)

  /** The twelve scalar surface parameters, each edited by its own slider. */
  datatype Scalar =
    | Subsurface | Metallic | Specular | SpecularTint | Roughness | Anisotropic
    | Sheen | SheenTint | Clearcoat | ClearcoatGloss | IndexOfRefraction | Transmission

  function ScalarOf(m: Material, f: Scalar): real {
    match f
    case Subsurface => m.subsurface
    case Metallic => m.metallic
    case Specular => m.specular
    case SpecularTint => m.specularTint
    case Roughness => m.roughness
    case Anisotropic => m.anisotropic
    case Sheen => m.sheen
    case SheenTint => m.sheenTint
    case Clearcoat => m.clearcoat
    case ClearcoatGloss => m.clearcoatGloss
    case IndexOfRefraction => m.IOR
    case Transmission => m.transmission
  }

  /** The fields of a material that no scalar slider edits. */
  predicate SameNonScalar(a: Material, b: Material) {
    && a.emissive == b.emissive && a.baseColor == b.baseColor
    && a.baseColorTexID == b.baseColorTexID
    && a.metallicRoughnessTexID == b.metallicRoughnessTexID
    && a.normalmapTexID == b.normalmapTexID
    && a.emissionmapTexID == b.emissionmapTexID
    && a.mediumType == b.mediumType && a.mediumColor == b.mediumColor
    && a.mediumDensity == b.mediumDensity && a.mediumAnisotropy == b.mediumAnisotropy
  }

  /** `material.<field> = v` for one scalar field: exactly that field changes. */
  function WithScalar(m: Material, f: Scalar, v: real): (r: Material)
    ensures ScalarOf(r, f) == v
    ensures forall g :: g != f ==> ScalarOf(r, g) == ScalarOf(m, g)
    ensures SameNonScalar(r, m)
  {
    match f
    case Subsurface => m.(subsurface := v)
    case Metallic => m.(metallic := v)
    case Specular => m.(specular := v)
    case SpecularTint => m.(specularTint := v)
    case Roughness => m.(roughness := v)
    case Anisotropic => m.(anisotropic := v)
    case Sheen => m.(sheen := v)
    case SheenTint => m.(sheenTint := v)
    case Clearcoat => m.(clearcoat := v)
    case ClearcoatGloss => m.(clearcoatGloss := v)
    case IndexOfRefraction => m.(IOR := v)
    case Transmission => m.(transmission := v)
  }

  /** Two materials are equal exactly when every scalar and every other field agree. */
  lemma {:induction false} MaterialExtensionality(a: Material, b: Material)
    ensures a == b <==> (SameNonScalar(a, b) && forall f :: ScalarOf(a, f) == ScalarOf(b, f))
  {
    if SameNonScalar(a, b) && forall f :: ScalarOf(a, f) == ScalarOf(b, f) {
      assert ScalarOf(a, Subsurface) == ScalarOf(b, Subsurface);
      assert ScalarOf(a, Metallic) == ScalarOf(b, Metallic);
      assert ScalarOf(a, Specular) == ScalarOf(b, Specular);
      assert ScalarOf(a, SpecularTint) == ScalarOf(b, SpecularTint);
      assert ScalarOf(a, Roughness) == ScalarOf(b, Roughness);
      assert ScalarOf(a, Anisotropic) == ScalarOf(b, Anisotropic);
      assert ScalarOf(a, Sheen) == ScalarOf(b, Sheen);
      assert ScalarOf(a, SheenTint) == ScalarOf(b, SheenTint);
      assert ScalarOf(a, Clearcoat) == ScalarOf(b, Clearcoat);
      assert ScalarOf(a, ClearcoatGloss) == ScalarOf(b, ClearcoatGloss);
      assert ScalarOf(a, IndexOfRefraction) == ScalarOf(b, IndexOfRefraction);
      assert ScalarOf(a, Transmission) == ScalarOf(b, Transmission);
    }
  }

  /** Setting a scalar to the value it already has changes nothing; any other value changes the material. */
  lemma WithScalarIdentity(m: Material, f: Scalar, v: real)
    ensures WithScalar(m, f, v) == m <==> ScalarOf(m, f) == v
  {
    MaterialExtensionality(WithScalar(m, f, v), m);
  }

  /** A default-constructed `Material`. */
  function DefaultMaterial(): (m: Material)
    ensures m.emissive == Vec3(0.0, 0.0, 0.0) && m.baseColor == Vec3(1.0, 1.0, 1.0)
    ensures forall f :: ScalarOf(m, f) == if f == IndexOfRefraction then 1.0 else 0.0
    ensures m.baseColorTexID == -1.0 && m.metallicRoughnessTexID == -1.0
    ensures m.normalmapTexID == -1.0 && m.emissionmapTexID == -1.0
    ensures m.mediumType == 0
  {
    Material(
      Vec3(0.0, 0.0, 0.0), Vec3(1.0, 1.0, 1.0),
      0.0, 0.0, 0.0, 0.0, 0.0, 0.0, 0.0, 0.0, 0.0, 0.0, 1.0, 0.0,
      -1.0, -1.0, -1.0, -1.0,
      0, Vec3(0.0, 0.0, 0.0), 0.0, 0.0)
  }

  /**
   * The static globals that the material editor widgets are bound to: the
   * colour arrays `baseColor[4]` and `emissive[3]` and the twelve scalars.
   */
  class MaterialPanel {
    const baseColor: array<real>
    const emissive: array<real>
    var subsurface: real
    var metallic: real
    var specular: real
    var specularTint: real
    var roughness: real
    var anisotropic: real
    var sheen: real
    var sheenTint: real
    var clearcoat: real
    var clearcoatGloss: real
    var IOR: real
    var transmission: real

    ghost predicate Valid()
      reads this
    {
      baseColor.Length == 4 && emissive.Length == 3 && baseColor != emissive
    }

    /** The value of the global bound to one scalar slider. */
    function Scalar(f: Scalar): real
      reads this
    {
      match f
      case Subsurface => subsurface
      case Metallic => metallic
      case Specular => specular
      case SpecularTint => specularTint
      case Roughness => roughness
      case Anisotropic => anisotropic
      case Sheen => sheen
      case SheenTint => sheenTint
      case Clearcoat => clearcoat
      case ClearcoatGloss => clearcoatGloss
      case IndexOfRefraction => IOR
      case Transmission => transmission
    }

    /** The globals show material m: its base colour, emission and all twelve scalars. */
    ghost predicate Shows(m: Material)
      requires Valid()
      reads this, baseColor, emissive
    {
      && baseColor[0] == m.baseColor.x && baseColor[1] == m.baseColor.y && baseColor[2] == m.baseColor.z
      && emissive[0] == m.emissive.x && emissive[1] == m.emissive.y && emissive[2] == m.emissive.z
      && forall f :: Scalar(f) == ScalarOf(m, f)
    }

    /** The static initialisers. IOR starts at 1.5, not at the default material's 1.0. */
    constructor ()
      ensures Valid() && fresh(baseColor) && fresh(emissive)
      ensures baseColor[..] == [1.0, 1.0, 1.0, 1.0] && emissive[..] == [0.0, 0.0, 0.0]
      ensures forall f :: Scalar(f) == if f == IndexOfRefraction then 1.5 else 0.0
    {
      baseColor := new real[4] [1.0, 1.0, 1.0, 1.0];
      emissive := new real[3] [0.0, 0.0, 0.0];
      subsurface, metallic, specular, specularTint := 0.0, 0.0, 0.0, 0.0;
      roughness, anisotropic, sheen, sheenTint := 0.0, 0.0, 0.0, 0.0;
      clearcoat, clearcoatGloss, IOR, transmission := 0.0, 0.0, 1.5, 0.0;
    }

    /**
     * Copies a material (taken by value) into the globals. The alpha slot
     * `baseColor[3]` is not written.
     */
    method SetGlobalMaterialProperty(material: Material)
      requires Valid()
      modifies this, baseColor, emissive
      ensures Valid() && Shows(material)
      ensures baseColor[3] == old(baseColor[3])
    {
      baseColor[0] := material.baseColor.x;
      baseColor[1] := material.baseColor.y;
      baseColor[2] := material.baseColor.z;

      emissive[0] := material.emissive.x;
      emissive[1] := material.emissive.y;
      emissive[2] := material.emissive.z;

      CopyScalars(material);
    }

    /** The twelve scalar globals of SetGlobalMaterialProperty. */
    method CopyScalars(material: Material)
      modifies this
      ensures forall f :: Scalar(f) == ScalarOf(material, f)
    {
      subsurface := material.subsurface;
      metallic := material.metallic;
      specular := material.specular;
      specularTint := material.specularTint;
      roughness := material.roughness;
      anisotropic := material.anisotropic;
      sheen := material.sheen;
      sheenTint := material.sheenTint;
      clearcoat := material.clearcoat;
      clearcoatGloss := material.clearcoatGloss;
      IOR := material.IOR;
      transmission := material.transmission;
    }

    /** A slider writing its bound global: exactly that scalar changes. */
    method SetScalar(f: Scalar, v: real)
      modifies this
      ensures Scalar(f) == v
      ensures forall g :: g != f ==> Scalar(g) == old(Scalar(g))
    {
      match f
      case Subsurface => subsurface := v;
      case Metallic => metallic := v;
      case Specular => specular := v;
      case SpecularTint => specularTint := v;
      case Roughness => roughness := v;
      case Anisotropic => anisotropic := v;
      case Sheen => sheen := v;
      case SheenTint => sheenTint := v;
      case Clearcoat => clearcoat := v;
      case ClearcoatGloss => clearcoatGloss := v;
      case IndexOfRefraction => IOR := v;
      case Transmission => transmission := v;
    }
  }

  /** The initial globals do not show the default material: they differ in IOR alone. */
  lemma InitialPanelIsNotDefault(p: MaterialPanel)
    requires p.Valid()
    requires p.baseColor[..] == [1.0, 1.0, 1.0, 1.0] && p.emissive[..] == [0.0, 0.0, 0.0]
    requires forall f :: p.Scalar(f) == if f == IndexOfRefraction then 1.5 else 0.0
    ensures !p.Shows(DefaultMaterial())
    ensures p.Shows(DefaultMaterial().(IOR := 1.5))
  {
    assert p.Scalar(IndexOfRefraction) == 1.5;
    assert p.baseColor[0] == p.baseColor[..][0];
    assert p.baseColor[1] == p.baseColor[..][1];
    assert p.baseColor[2] == p.baseColor[..][2];
    assert p.emissive[0] == p.emissive[..][0];
    assert p.emissive[1] == p.emissive[..][1];
    assert p.emissive[2] == p.emissive[..][2];
    var m := DefaultMaterial().(IOR := 1.5);
    forall f ensures p.Scalar(f) == ScalarOf(m, f) {
    }
  }
}
