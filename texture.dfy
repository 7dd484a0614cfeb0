/** CPU-side textures of the ray tracer (src/res/texture/mod.rs): a texture is
    its dimensions and one RGB triple per pixel, and a `TextureDescriptor` is
    the fixed-size record the GPU kernel uses to find a texture's pixels in
    the global texture array. */
module Texture {
  import opened Scalar
  import opened Wrappers

  /** GPU wire record: where a texture's pixels start in the global array. */
  datatype TextureDescriptor = TextureDescriptor(width: u32, height: u32, offset: u32)

  /** Offset value that marks a descriptor slot with no texture. */
  const EMPTY_OFFSET: u32 := 0xffff_ffff

  /** `TextureDescriptor::empty()`: the descriptor of an unused texture slot. */
  function EmptyDescriptor(): (d: TextureDescriptor)
    ensures d.width == 0 && d.height == 0
    ensures d.offset as int == U32_MAX
  {
    TextureDescriptor(0, 0, EMPTY_OFFSET)
  }

  /** One pixel, `[f32; 3]`. */
  datatype Rgb = Rgb(r: F32, g: F32, b: F32)

  /** `glam::Vec3`. */
  datatype Vec3 = Vec3(x: F32, y: F32, z: F32)

  /** A decoded 8-bit RGBA pixel, `image::Rgba<u8>`. */
  datatype Rgba8 = Rgba8(r: byte, g: byte, b: byte, a: byte)

  /** A decoded image, `image::RgbaImage`: row-major pixels, `width * height` of them. */
  datatype RgbaImage = RgbaImage(width: u32, height: u32, pixels: seq<Rgba8>)
  {
    ghost predicate Valid()
    {
      |pixels| == width as int * height as int
    }
  }

  datatype Texture = Texture(dimensions: (u32, u32), data: seq<Rgb>)
  {
    /** `Texture::as_slice`: the pixel data. */
    function AsSlice(): seq<Rgb>
    {
      data
    }

    /** `Texture::dimensions`: `(width, height)`. */
    function Dimensions(): (u32, u32)
    {
      dimensions
    }

    /** One pixel per texel. */
    ghost predicate WellFormed()
    {
      |data| == dimensions.0 as int * dimensions.1 as int
    }
  }

  /** The error type `new_from_scaled_image` declares; no path of the code produces it. */
  datatype LoadTextureDataError = LoadTextureDataError(message: string)

  /** The RGB triple of one decoded pixel, each channel times `scale / 255`; alpha is dropped. */
  function ScalePixel(scale: F32, p: Rgba8): Rgb
  {
    Rgb(ScaleChannel(scale, p.r), ScaleChannel(scale, p.g), ScaleChannel(scale, p.b))
  }

  /** `Texture::new_from_scaled_image` after the file has been opened and decoded
      (an open or decode failure panics through `unwrap`, so it never returns `Err`). */
  function NewFromScaledImage(image: RgbaImage, scale: F32): (r: Result<Texture, LoadTextureDataError>)
    requires image.Valid()
    ensures r.Ok?
    ensures r.value.Dimensions() == (image.width, image.height)
    ensures |r.value.AsSlice()| == |image.pixels|
    ensures r.value.WellFormed()
    ensures forall i :: 0 <= i < |image.pixels| ==> r.value.AsSlice()[i] == ScalePixel(scale, image.pixels[i])
  {
    Ok(Texture((image.width, image.height), seq(|image.pixels|, i requires 0 <= i < |image.pixels| => ScalePixel(scale, image.pixels[i]))))
  }

  /** `Texture::new_from_image`: decoded at scale 1. */
  function NewFromImage(image: RgbaImage): (r: Result<Texture, LoadTextureDataError>)
    requires image.Valid()
    ensures r == NewFromScaledImage(image, Finite(1.0))
  {
    NewFromScaledImage(image, Finite(1.0))
  }

  /** `Texture::new_from_color`: a 1x1 texture holding the colour as its one pixel. */
  function NewFromColor(color: Vec3): (t: Texture)
    ensures t.Dimensions() == (1, 1)
    ensures t.AsSlice() == [Rgb(color.x, color.y, color.z)]
    ensures t.WellFormed()
  {
    Texture((1, 1), [Rgb(color.x, color.y, color.z)])
  }

  /** Every channel of an unscaled image texture lies in [0, 1]. */
  lemma {:induction false} NewFromImageChannelsInUnitRange(image: RgbaImage, i: nat)
    requires image.Valid() && i < |image.pixels|
    ensures var p := NewFromImage(image).value.AsSlice()[i];
      InInclusiveRange(p.r, Finite(0.0), Finite(1.0)) &&
      InInclusiveRange(p.g, Finite(0.0), Finite(1.0)) &&
      InInclusiveRange(p.b, Finite(0.0), Finite(1.0))
  {
    var px := image.pixels[i];
    assert NewFromImage(image).value.AsSlice()[i] == ScalePixel(Finite(1.0), px);
    UnitScaleChannelInUnitRange(px.r);
    UnitScaleChannelInUnitRange(px.g);
    UnitScaleChannelInUnitRange(px.b);
  }
}
