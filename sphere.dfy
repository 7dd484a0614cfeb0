/** The GPU sphere record (src/math/sphere.rs): a centre widened to four
    components, a radius, a material index and two words of padding, laid
    out under `#[repr(C)]` for a storage buffer. */
module Sphere {
  import opened Scalar
  import opened Texture

  datatype Vec4 = Vec4(x: F32, y: F32, z: F32, w: F32)

  datatype Sphere = Sphere(center: Vec4, radius: F32, materialIdx: u32, padding: (u32, u32))

  /** `Sphere::new`. */
  function New(center: Vec3, radius: F32, materialIdx: u32): (s: Sphere)
    ensures s.center == Vec4(center.x, center.y, center.z, Finite(1.0))
    ensures s.radius == radius && s.materialIdx == materialIdx
    ensures s.padding == (0, 0)
  {
    Sphere(Vec4(center.x, center.y, center.z, Finite(1.0)), radius, materialIdx, (0, 0))
  }

  // ---------------------------------------------------------------------------
  // The `#[repr(C)]` layout

  /** The type of a record field, as far as its size and alignment go. */
  datatype FieldType = F32Field | U32Field | Vec4Field | ArrayField(elem: FieldType, count: nat)

  function SizeOf(t: FieldType): nat
  {
    match t
    case F32Field => 4
    case U32Field => 4
    case Vec4Field => 16
    case ArrayField(elem, count) => SizeOf(elem) * count
  }

  /** Alignment in bytes; `glam::Vec4` is declared 16-byte aligned. */
  function AlignOf(t: FieldType): (a: nat)
    ensures a > 0
  {
    match t
    case F32Field => 4
    case U32Field => 4
    case Vec4Field => 16
    case ArrayField(elem, _) => AlignOf(elem)
  }

  /** The declared types of `Sphere`'s fields, in declaration order: `Vec4`, `f32`,
      `u32` and `[u32; 2]` (the datatype above mirrors them one for one). */
  const SPHERE_FIELDS: seq<FieldType> := [Vec4Field, F32Field, U32Field, ArrayField(U32Field, 2)]

  /** The first multiple of `a` at or after `n`. */
  function AlignUp(n: nat, a: nat): (r: nat)
    requires a > 0
    ensures n <= r < n + a && r % a == 0
  {
    if n % a == 0 then n
    else
      assert n + (a - n % a) == a * (n / a + 1);
      MultipleModZero(a, n / a + 1);
      n + (a - n % a)
  }

  /** Where the fields of a `#[repr(C)]` record end, before trailing padding. */
  function ReprCEnd(fields: seq<FieldType>): nat
    decreases |fields|, 1
  {
    if fields == [] then 0 else ReprCOffset(fields, |fields| - 1) + SizeOf(fields[|fields| - 1])
  }

  /** `#[repr(C)]` field offset: field `i` starts at the first multiple of its alignment
      at or after the end of the fields before it. */
  function ReprCOffset(fields: seq<FieldType>, i: nat): nat
    requires i < |fields|
    decreases i + 1, 0
  {
    AlignUp(ReprCEnd(fields[..i]), AlignOf(fields[i]))
  }

  /** The largest alignment of the fields (1 for none). */
  function MaxAlign(fields: seq<FieldType>): (a: nat)
    ensures a > 0
    decreases |fields|
  {
    if fields == [] then 1
    else
      var rest := MaxAlign(fields[..|fields| - 1]);
      var last := AlignOf(fields[|fields| - 1]);
      if last > rest then last else rest
  }

  /** `size_of` of a `#[repr(C)]` record: the end of its fields rounded up to its alignment. */
  function ReprCSize(fields: seq<FieldType>): nat
  {
    AlignUp(ReprCEnd(fields), MaxAlign(fields))
  }

  /** A field's offset depends only on the fields up to it. */
  lemma {:induction false} ReprCOffsetPrefix(fields: seq<FieldType>, i: nat, n: nat)
    requires i < n <= |fields|
    ensures ReprCOffset(fields[..n], i) == ReprCOffset(fields, i)
  {
    assert fields[..n][..i] == fields[..i];
  }

  /** Under `#[repr(C)]` every field is aligned, and fields follow one another in
      declaration order without overlapping. */
  lemma {:induction false} ReprCFieldsInOrder(fields: seq<FieldType>, i: nat)
    requires i + 1 < |fields|
    ensures ReprCOffset(fields, i) % AlignOf(fields[i]) == 0
    ensures ReprCOffset(fields, i) + SizeOf(fields[i]) <= ReprCOffset(fields, i + 1)
  {
    var pre := fields[..i + 1];
    ReprCOffsetPrefix(fields, i, i + 1);
    assert pre[|pre| - 1] == fields[i];
    assert ReprCEnd(pre) == ReprCOffset(fields, i) + SizeOf(fields[i]);
  }

  const RECORD_SIZE: nat := 32

  /** The offsets the layout comments of `Sphere` give. */
  const SPHERE_OFFSETS: seq<nat> := [0, 16, 20, 24]

  /** The `#[repr(C)]` layout of `Sphere`'s field types puts the fields at the commented
      offsets 0, 16, 20 and 24 with no padding between them, and the record is 32 bytes,
      a multiple of 16, so an array of spheres keeps every centre 16-byte aligned. */
  lemma {:induction false} LayoutIsPacked()
    ensures forall i :: 0 <= i < |SPHERE_FIELDS| ==> ReprCOffset(SPHERE_FIELDS, i) == SPHERE_OFFSETS[i]
    ensures forall i :: 0 <= i < |SPHERE_FIELDS| - 1 ==>
      ReprCOffset(SPHERE_FIELDS, i) + SizeOf(SPHERE_FIELDS[i]) == ReprCOffset(SPHERE_FIELDS, i + 1)
    ensures ReprCEnd(SPHERE_FIELDS) == RECORD_SIZE && ReprCSize(SPHERE_FIELDS) == RECORD_SIZE
    ensures RECORD_SIZE % AlignOf(Vec4Field) == 0
  {
    var f := SPHERE_FIELDS;
    assert f[..0] == [];
    assert ReprCOffset(f, 0) == 0;
    assert f[..1][..0] == [];
    assert ReprCEnd(f[..1]) == 16;
    assert ReprCOffset(f, 1) == 16;
    assert f[..2][..1] == f[..1];
    assert ReprCEnd(f[..2]) == 20;
    assert ReprCOffset(f, 2) == 20;
    assert f[..3][..2] == f[..2];
    assert ReprCEnd(f[..3]) == 24;
    assert ReprCOffset(f, 3) == 24;
    assert f[..3] == [Vec4Field, F32Field, U32Field];
    assert MaxAlign(f[..3]) == 16 by {
      assert f[..3][..2] == [Vec4Field, F32Field];
      assert f[..3][..2][..1] == [Vec4Field];
      assert [Vec4Field][..0] == [];
    }
  }
}
