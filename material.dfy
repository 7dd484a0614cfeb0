/** Ray-tracing materials and their GPU records (src/res/material.rs), and the
    scene encoder's material pass (src/core/raytracer/mod.rs): each material
    becomes one tagged `GpuMaterial`, and the pixels of the textures it owns
    are appended to one global texture array that its descriptors point into. */
module Material {
  import opened Scalar
  import opened Texture

  datatype RayCastMaterial =
    | Lambertian(albedo: Texture)
    | Metal(albedo: Texture, fuzz: F32)
    | Dielectric(refractionIndex: F32)
    | Checkerboard(even: Texture, odd: Texture)
    | Emissive(emit: Texture)

  /** GPU record: a type tag, two texture slots and one scalar parameter. */
  datatype GpuMaterial = GpuMaterial(id: u32, desc1: TextureDescriptor, desc2: TextureDescriptor, x: F32)

  const LAMBERTIAN_ID: u32 := 0
  const METAL_ID: u32 := 1
  const DIELECTRIC_ID: u32 := 2
  const CHECKERBOARD_ID: u32 := 3
  const EMISSIVE_ID: u32 := 4

  /** The descriptor of texture `t` appended when the array held `len` pixels;
      the offset is `len as u32`, which truncates. */
  function DescriptorAt(t: Texture, len: nat): (d: TextureDescriptor)
    ensures (d.width, d.height) == t.Dimensions()
    ensures len < U32_LIMIT ==> d.offset as int == len
  {
    TextureDescriptor(t.Dimensions().0, t.Dimensions().1, WrapU32(len))
  }

  /** The global, append-only texture array (`Vec<[f32; 3]>` passed as `&mut`). */
  class GlobalTextureData {
    var data: seq<Rgb>

    constructor ()
      ensures data == []
    {
      data := [];
    }

    /** `GpuMaterial::append_to_global_texture_data`. */
    method Append(texture: Texture) returns (d: TextureDescriptor)
      modifies this
      ensures data == old(data) + texture.AsSlice()
      ensures d == DescriptorAt(texture, |old(data)|)
    {
      var dimensions := texture.Dimensions();
      var offset := WrapU32(|data|);
      data := data + texture.AsSlice();
      d := TextureDescriptor(dimensions.0, dimensions.1, offset);
    }
  }

  /** `GpuMaterial::lambertian`. */
  method NewLambertian(albedo: Texture, g: GlobalTextureData) returns (m: GpuMaterial)
    modifies g
    ensures g.data == old(g.data) + albedo.AsSlice()
    ensures m == GpuMaterial(LAMBERTIAN_ID, DescriptorAt(albedo, |old(g.data)|), EmptyDescriptor(), Finite(0.0))
  {
    var desc1 := g.Append(albedo);
    m := GpuMaterial(LAMBERTIAN_ID, desc1, EmptyDescriptor(), Finite(0.0));
  }

  /** `GpuMaterial::metal`. */
  method NewMetal(albedo: Texture, fuzz: F32, g: GlobalTextureData) returns (m: GpuMaterial)
    modifies g
    ensures g.data == old(g.data) + albedo.AsSlice()
    ensures m == GpuMaterial(METAL_ID, DescriptorAt(albedo, |old(g.data)|), EmptyDescriptor(), fuzz)
  {
    var desc1 := g.Append(albedo);
    m := GpuMaterial(METAL_ID, desc1, EmptyDescriptor(), fuzz);
  }

  /** `GpuMaterial::dielectric`: no texture, so the global array is not touched. */
  function NewDielectric(refractionIndex: F32): (m: GpuMaterial)
    ensures m.id == DIELECTRIC_ID && m.x == refractionIndex
    ensures m.desc1 == m.desc2 == EmptyDescriptor()
  {
    GpuMaterial(DIELECTRIC_ID, EmptyDescriptor(), EmptyDescriptor(), refractionIndex)
  }

  /** `GpuMaterial::checkerboard(even, odd, ..)`: appends its first texture, then its second. */
  method NewCheckerboard(even: Texture, odd: Texture, g: GlobalTextureData) returns (m: GpuMaterial)
    modifies g
    ensures g.data == old(g.data) + even.AsSlice() + odd.AsSlice()
    ensures m == GpuMaterial(CHECKERBOARD_ID, DescriptorAt(even, |old(g.data)|),
                             DescriptorAt(odd, |old(g.data)| + |even.AsSlice()|), Finite(0.0))
  {
    var desc1 := g.Append(even);
    var desc2 := g.Append(odd);
    m := GpuMaterial(CHECKERBOARD_ID, desc1, desc2, Finite(0.0));
  }

  /** `GpuMaterial::emissive`. */
  method NewEmissive(emit: Texture, g: GlobalTextureData) returns (m: GpuMaterial)
    modifies g
    ensures g.data == old(g.data) + emit.AsSlice()
    ensures m == GpuMaterial(EMISSIVE_ID, DescriptorAt(emit, |old(g.data)|), EmptyDescriptor(), Finite(0.0))
  {
    var desc1 := g.Append(emit);
    m := GpuMaterial(EMISSIVE_ID, desc1, EmptyDescriptor(), Finite(0.0));
  }

  // ---------------------------------------------------------------------------
  // Specification of the encoder's material pass

  /** The type tag the GPU kernel expects for each variant. */
  function TypeTag(m: RayCastMaterial): u32
  {
    match m
    case Lambertian(_) => LAMBERTIAN_ID
    case Metal(_, _) => METAL_ID
    case Dielectric(_) => DIELECTRIC_ID
    case Checkerboard(_, _) => CHECKERBOARD_ID
    case Emissive(_) => EMISSIVE_ID
  }

  /** The textures a material's encoding appends, in append order. The encoder
      calls `checkerboard(odd, even, ..)`, so a checkerboard appends its odd
      texture first. */
  function TextureList(m: RayCastMaterial): seq<Texture>
  {
    match m
    case Lambertian(albedo) => [albedo]
    case Metal(albedo, _) => [albedo]
    case Dielectric(_) => []
    case Checkerboard(even, odd) => [odd, even]
    case Emissive(emit) => [emit]
  }

  /** The descriptor slots of `g` that the variant `m` uses, in slot order. */
  function UsedDescriptors(g: GpuMaterial, m: RayCastMaterial): seq<TextureDescriptor>
  {
    match m
    case Dielectric(_) => []
    case Checkerboard(_, _) => [g.desc1, g.desc2]
    case _ => [g.desc1]
  }

  /** The scalar parameter slot: fuzz for metal, refraction index for dielectric, otherwise 0. */
  function ScalarParameter(m: RayCastMaterial): F32
  {
    match m
    case Metal(_, fuzz) => fuzz
    case Dielectric(refractionIndex) => refractionIndex
    case _ => Finite(0.0)
  }

  datatype Encoded = Encoded(material: GpuMaterial, textureData: seq<Rgb>)

  /** One step of the material loop of `Raytracer::new`: the dispatch on the variant
      with the global array holding `data` beforehand. */
  function EncodeMaterial(m: RayCastMaterial, data: seq<Rgb>): (r: Encoded)
    ensures data <= r.textureData
    ensures r.material.id == TypeTag(m)
  {
    match m
    case Lambertian(albedo) =>
      Encoded(GpuMaterial(LAMBERTIAN_ID, DescriptorAt(albedo, |data|), EmptyDescriptor(), Finite(0.0)),
              data + albedo.AsSlice())
    case Metal(albedo, fuzz) =>
      Encoded(GpuMaterial(METAL_ID, DescriptorAt(albedo, |data|), EmptyDescriptor(), fuzz),
              data + albedo.AsSlice())
    case Dielectric(refractionIndex) =>
      Encoded(NewDielectric(refractionIndex), data)
    case Checkerboard(even, odd) =>
      Encoded(GpuMaterial(CHECKERBOARD_ID, DescriptorAt(odd, |data|),
                          DescriptorAt(even, |data| + |odd.AsSlice()|), Finite(0.0)),
              data + odd.AsSlice() + even.AsSlice())
    case Emissive(emit) =>
      Encoded(GpuMaterial(EMISSIVE_ID, DescriptorAt(emit, |data|), EmptyDescriptor(), Finite(0.0)),
              data + emit.AsSlice())
  }

  datatype Encoding = Encoding(materials: seq<GpuMaterial>, textureData: seq<Rgb>)

  /** The whole material loop: materials in declaration order, starting from an empty
      array; one GPU record per material. */
  function EncodeMaterials(ms: seq<RayCastMaterial>): (r: Encoding)
    ensures |r.materials| == |ms|
    decreases |ms|
  {
    if ms == [] then Encoding([], [])
    else
      var before := EncodeMaterials(ms[..|ms| - 1]);
      var step := EncodeMaterial(ms[|ms| - 1], before.textureData);
      Encoding(before.materials + [step.material], step.textureData)
  }

  /** The pixels of `ts`, concatenated in order. */
  function Concat(ts: seq<Texture>): seq<Rgb>
    decreases |ts|
  {
    if ts == [] then [] else Concat(ts[..|ts| - 1]) + ts[|ts| - 1].AsSlice()
  }

  /** Total number of pixels of `ts`. */
  function PixelCount(ts: seq<Texture>): nat
    decreases |ts|
  {
    if ts == [] then 0 else PixelCount(ts[..|ts| - 1]) + |ts[|ts| - 1].AsSlice()|
  }

  /** Every texture appended by `ms`, in append order. */
  function AllTextures(ms: seq<RayCastMaterial>): seq<Texture>
    decreases |ms|
  {
    if ms == [] then [] else AllTextures(ms[..|ms| - 1]) + TextureList(ms[|ms| - 1])
  }

  /** Every used descriptor of `gs`, material by material. */
  function AllDescriptors(gs: seq<GpuMaterial>, ms: seq<RayCastMaterial>): seq<TextureDescriptor>
    requires |gs| == |ms|
    decreases |ms|
  {
    if ms == [] then []
    else AllDescriptors(gs[..|gs| - 1], ms[..|ms| - 1]) + UsedDescriptors(gs[|gs| - 1], ms[|ms| - 1])
  }

  /** Where an arena holding `start` pixels places `ts` when it appends them one after another. */
  function Placed(ts: seq<Texture>, start: nat): seq<TextureDescriptor>
    decreases |ts|
  {
    if ts == [] then []
    else Placed(ts[..|ts| - 1], start) + [DescriptorAt(ts[|ts| - 1], start + |Concat(ts[..|ts| - 1])|)]
  }

  // ---------------------------------------------------------------------------
  // Lemmas

  lemma {:induction false} ConcatAppend(a: seq<Texture>, b: seq<Texture>)
    ensures Concat(a + b) == Concat(a) + Concat(b)
    decreases |b|
  {
    if b == [] {
      assert a + b == a;
    } else {
      var b' := b[..|b| - 1];
      assert (a + b)[..|a + b| - 1] == a + b';
      ConcatAppend(a, b');
    }
  }

  /** The concatenated array is as long as the textures' pixel counts add up to. */
  lemma {:induction false} ConcatLength(ts: seq<Texture>)
    ensures |Concat(ts)| == PixelCount(ts)
    decreases |ts|
  {
    if ts != [] { ConcatLength(ts[..|ts| - 1]); }
  }

  /** The array after the first `k + 1` textures is the array after `k` plus texture `k`. */
  lemma {:induction false} ConcatStep(ts: seq<Texture>, k: nat)
    requires k < |ts|
    ensures Concat(ts[..k + 1]) == Concat(ts[..k]) + ts[k].AsSlice()
  {
    assert ts[..k + 1][..k] == ts[..k];
  }

  /** Texture `k` is placed where the pixels of the textures before it end. */
  lemma {:induction false} PlacedAt(ts: seq<Texture>, start: nat, k: nat)
    requires k < |ts|
    ensures |Placed(ts, start)| == |ts|
    ensures Placed(ts, start)[k] == DescriptorAt(ts[k], start + |Concat(ts[..k])|)
    decreases |ts|
  {
    var ts' := ts[..|ts| - 1];
    if k < |ts| - 1 {
      PlacedAt(ts', start, k);
      assert ts'[k] == ts[k] && ts'[..k] == ts[..k];
    } else {
      assert ts[..k] == ts';
      if ts' != [] { PlacedAt(ts', start, 0); }
    }
  }

  /** Placing `a` and then `l` places `a` as before and `l` from the end of `a`'s pixels. */
  lemma {:induction false} PlacedAppend(a: seq<Texture>, l: seq<Texture>, start: nat)
    ensures Placed(a + l, start) == Placed(a, start) + Placed(l, start + |Concat(a)|)
    decreases |l|
  {
    if l == [] {
      assert a + l == a;
    } else {
      var l' := l[..|l| - 1];
      assert (a + l)[..|a + l| - 1] == a + l';
      PlacedAppend(a, l', start);
      ConcatAppend(a, l');
    }
  }

  /** Reading a placement back out of the array yields the texture's pixels
      (as long as every offset fits in a `u32`). */
  lemma {:induction false} PlacementRoundTrip(ts: seq<Texture>, k: nat)
    requires k < |ts|
    requires |Concat(ts)| < U32_LIMIT
    ensures |Placed(ts, 0)| == |ts|
    ensures var d := Placed(ts, 0)[k];
      (d.width, d.height) == ts[k].Dimensions() &&
      d.offset as int + |ts[k].AsSlice()| <= |Concat(ts)| &&
      Concat(ts)[d.offset as int .. d.offset as int + |ts[k].AsSlice()|] == ts[k].AsSlice()
  {
    var pre := Concat(ts[..k]);
    PlacedAt(ts, 0, k);
    ConcatStep(ts, k);
    ConcatAppend(ts[..k + 1], ts[k + 1..]);
    assert ts[..k + 1] + ts[k + 1..] == ts;
    assert Concat(ts) == pre + ts[k].AsSlice() + Concat(ts[k + 1..]);
  }

  /** Placements are back to back: the first starts at 0 and each next one starts where
      the previous one's pixels end, so no two overlap and the offsets strictly increase
      over textures that have pixels. */
  lemma {:induction false} PlacementsAdjacent(ts: seq<Texture>, k: nat)
    requires k + 1 < |ts|
    requires |Concat(ts)| < U32_LIMIT
    ensures |Placed(ts, 0)| == |ts|
    ensures Placed(ts, 0)[0].offset == 0
    ensures Placed(ts, 0)[k + 1].offset as int == Placed(ts, 0)[k].offset as int + |ts[k].AsSlice()|
  {
    assert ts[..0] == [];
    PlacedAt(ts, 0, 0);
    PlacedAt(ts, 0, k);
    PlacedAt(ts, 0, k + 1);
    ConcatStep(ts, k);
    ConcatAppend(ts[..k + 2], ts[k + 2..]);
    assert ts[..k + 2] + ts[k + 2..] == ts;
    ConcatStep(ts, k + 1);
  }

  /** A single texture is concatenated and placed on its own. */
  lemma {:induction false} SingleTexture(t: Texture, start: nat)
    ensures Concat([t]) == t.AsSlice()
    ensures Placed([t], start) == [DescriptorAt(t, start)]
  {
    assert [t][..0] == [];
  }

  /** Two textures are concatenated in order, the second placed after the first. */
  lemma {:induction false} TexturePair(a: Texture, b: Texture, start: nat)
    ensures Concat([a, b]) == a.AsSlice() + b.AsSlice()
    ensures Placed([a, b], start) == [DescriptorAt(a, start), DescriptorAt(b, start + |a.AsSlice()|)]
  {
    assert [a, b][..1] == [a];
    SingleTexture(a, start);
  }

  /** One material step appends exactly the material's textures, and its used
      descriptors place them one after another from the old end of the array. */
  lemma {:induction false} EncodeMaterialAppends(m: RayCastMaterial, data: seq<Rgb>)
    ensures EncodeMaterial(m, data).textureData == data + Concat(TextureList(m))
    ensures UsedDescriptors(EncodeMaterial(m, data).material, m) == Placed(TextureList(m), |data|)
    ensures EncodeMaterial(m, data).material.id == TypeTag(m)
    ensures EncodeMaterial(m, data).material.x == ScalarParameter(m)
  {
    match m
    case Lambertian(albedo) => SingleTexture(albedo, |data|);
    case Metal(albedo, _) => SingleTexture(albedo, |data|);
    case Dielectric(_) =>
    case Checkerboard(even, odd) =>
      TexturePair(odd, even, |data|);
      assert data + odd.AsSlice() + even.AsSlice() == data + (odd.AsSlice() + even.AsSlice());
    case Emissive(emit) => SingleTexture(emit, |data|);
  }

  /** The global array after the material pass is every appended texture, concatenated. */
  lemma {:induction false} EncodeMaterialsTextureData(ms: seq<RayCastMaterial>)
    ensures EncodeMaterials(ms).textureData == Concat(AllTextures(ms))
    decreases |ms|
  {
    if ms != [] {
      var ms' := ms[..|ms| - 1];
      var m := ms[|ms| - 1];
      var before := EncodeMaterials(ms');
      var l := TextureList(m);
      assert before.textureData == Concat(AllTextures(ms')) by { EncodeMaterialsTextureData(ms'); }
      assert EncodeMaterial(m, before.textureData).textureData == before.textureData + Concat(l) by {
        EncodeMaterialAppends(m, before.textureData);
      }
      assert Concat(AllTextures(ms') + l) == Concat(AllTextures(ms')) + Concat(l) by {
        ConcatAppend(AllTextures(ms'), l);
      }
    }
  }

  /** The used descriptors of the material pass are exactly the back-to-back placements
      of every appended texture from offset 0. */
  lemma {:induction false} EncodeMaterialsDescriptors(ms: seq<RayCastMaterial>)
    ensures |EncodeMaterials(ms).materials| == |ms|
    ensures AllDescriptors(EncodeMaterials(ms).materials, ms) == Placed(AllTextures(ms), 0)
    decreases |ms|
  {
    if ms != [] {
      var ms' := ms[..|ms| - 1];
      var m := ms[|ms| - 1];
      var before := EncodeMaterials(ms');
      var step := EncodeMaterial(m, before.textureData);
      var ts' := AllTextures(ms');
      var l := TextureList(m);
      var gs := before.materials + [step.material];
      assert EncodeMaterials(ms).materials == gs;
      assert |before.materials| == |ms'| && AllDescriptors(before.materials, ms') == Placed(ts', 0) by {
        EncodeMaterialsDescriptors(ms');
      }
      assert |before.textureData| == |Concat(ts')| by { EncodeMaterialsTextureData(ms'); }
      assert UsedDescriptors(step.material, m) == Placed(l, |before.textureData|) by {
        EncodeMaterialAppends(m, before.textureData);
      }
      assert gs[..|gs| - 1] == before.materials;
      assert AllDescriptors(gs, ms) == Placed(ts', 0) + Placed(l, |Concat(ts')|);
      assert Placed(ts' + l, 0) == Placed(ts', 0) + Placed(l, |Concat(ts')|) by { PlacedAppend(ts', l, 0); }
    }
  }

  /** The material pass, as a whole: one record per material in declaration order,
      the global array is the concatenation of every appended texture, and the used
      descriptors are exactly the arena placements of those textures. */
  lemma {:induction false} EncodeMaterialsLayout(ms: seq<RayCastMaterial>)
    ensures |EncodeMaterials(ms).materials| == |ms|
    ensures EncodeMaterials(ms).textureData == Concat(AllTextures(ms))
    ensures AllDescriptors(EncodeMaterials(ms).materials, ms) == Placed(AllTextures(ms), 0)
  {
    EncodeMaterialsTextureData(ms);
    EncodeMaterialsDescriptors(ms);
  }

  /** Each record carries its variant's tag and scalar parameter, and is computed
      from the array as the earlier materials left it. */
  lemma {:induction false} EncodeMaterialsRecords(ms: seq<RayCastMaterial>, i: nat)
    requires i < |ms|
    ensures |EncodeMaterials(ms).materials| == |ms|
    ensures EncodeMaterials(ms).materials[i] == EncodeMaterial(ms[i], EncodeMaterials(ms[..i]).textureData).material
    ensures EncodeMaterials(ms).materials[i].id == TypeTag(ms[i])
    ensures EncodeMaterials(ms).materials[i].x == ScalarParameter(ms[i])
    decreases |ms|
  {
    var ms' := ms[..|ms| - 1];
    if i < |ms| - 1 {
      EncodeMaterialsRecords(ms', i);
      assert ms'[i] == ms[i] && ms'[..i] == ms[..i];
      assert EncodeMaterials(ms).materials[i] == EncodeMaterials(ms').materials[i];
    } else {
      assert ms[..i] == ms';
    }
    EncodeMaterialAppends(ms[i], EncodeMaterials(ms[..i]).textureData);
  }
}
