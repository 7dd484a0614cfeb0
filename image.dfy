/** glTF image loading (src/res/image.rs), following section 3.8 of the glTF 2.0
    specification: an image's bytes come either from a file named by its URI or
    from a buffer view, a byte range of an already loaded buffer. Decoding is
    not done here; only the raw bytes and a pixel format are returned. */
module GltfImage {
  import opened Scalar
  import opened Wrappers
  import opened Text
  import opened GltfBuffer

  /** `gltf::image::Format`. */
  datatype Format =
    | R8 | R8G8 | R8G8B8 | R8G8B8A8
    | R16 | R16G16 | R16G16B16 | R16G16B16A16
    | R32G32B32FLOAT | R32G32B32A32FLOAT

  /** `gltf::image::Source`: a URI with an optional declared MIME type, or a buffer view
      (`buffer` index, byte `offset` and byte `length`) with a mandatory one. */
  datatype ImageSource =
    | UriImage(uri: string, uriMimeType: Option<string>)
    | ViewImage(buffer: nat, offset: nat, length: nat, mimeType: string)

  datatype ImageData = ImageData(data: seq<byte>, uri: Option<string>, format: Format)

  datatype LoadImageDataError = LoadImageDataError(message: string, source: Option<IoError>)

  /** `Display for LoadImageDataError`: a fixed prefix, then the message, which can be
      read back from the display. */
  function DisplayImageError(e: LoadImageDataError): (d: string)
    ensures "Image loading error: " <= d
    ensures d[|"Image loading error: "|..] == e.message
  {
    "Image loading error: " + e.message
  }

  const PNG: string := "image/png"
  const JPEG: string := "image/jpeg"

  /** Indexing `buffers` with the view's buffer index does not panic. */
  predicate ViewInRange(buffers: seq<BufferData>, image: ImageSource)
  {
    image.ViewImage? ==> image.buffer < |buffers|
  }

  /** Format of a URI image: PNG is four channels, anything else (JPEG, an unknown type
      or none) is taken as three. */
  function UriFormat(mimeType: Option<string>): (f: Format)
    ensures f == R8G8B8A8 || f == R8G8B8
  {
    if mimeType == Some(PNG) then R8G8B8A8 else R8G8B8
  }

  /** `load_gltf_image_data`: a loaded image remembers a URI exactly when it came from
      one, and a view image holds as many bytes as the view is long. */
  function LoadImageData(basePath: Option<string>, buffers: seq<BufferData>, image: ImageSource, read: ReadFile)
    : (r: Result<ImageData, LoadImageDataError>)
    requires ViewInRange(buffers, image)
    ensures r.Ok? ==> (r.value.uri.Some? <==> image.UriImage?)
    ensures r.Ok? && image.ViewImage? ==> |r.value.data| == image.length
  {
    match image
    case UriImage(uri, mimeType) =>
      if basePath.None? then
        Err(LoadImageDataError("Base path required for external images", None))
      else
        var path := JoinPath(basePath.value, uri);
        var contents := read(path);
        if contents.Err? then
          Err(LoadImageDataError("Failed to read image at " + path, Some(contents.error)))
        else
          Ok(ImageData(contents.value, Some(uri), UriFormat(mimeType)))
    case ViewImage(b, start, length, mimeType) =>
      var bytes := buffers[b].data;
      var end := start + length;
      if end > |bytes| then
        Err(LoadImageDataError("Image view exceeds buffer bounds (" + NatToString(end) + " > " + NatToString(|bytes|) + ")", None))
      else if mimeType == PNG then
        Ok(ImageData(bytes[start..end], None, R8G8B8A8))
      else if mimeType == JPEG then
        Ok(ImageData(bytes[start..end], None, R8G8B8))
      else
        Err(LoadImageDataError("Unsupported image mime type: " + mimeType, None))
  }

  /** The per-image results, in document order. */
  function ImageResults(basePath: Option<string>, buffers: seq<BufferData>, images: seq<ImageSource>, read: ReadFile)
    : (rs: seq<Result<ImageData, LoadImageDataError>>)
    requires forall i :: 0 <= i < |images| ==> ViewInRange(buffers, images[i])
    ensures |rs| == |images|
    ensures forall i :: 0 <= i < |images| ==> rs[i] == LoadImageData(basePath, buffers, images[i], read)
  {
    seq(|images|, i requires 0 <= i < |images| => LoadImageData(basePath, buffers, images[i], read))
  }

  /** `load_gltf_images`: every image of the document, in order, or the first error. */
  function LoadImages(basePath: Option<string>, buffers: seq<BufferData>, images: seq<ImageSource>, read: ReadFile)
    : (r: Result<seq<ImageData>, LoadImageDataError>)
    requires forall i :: 0 <= i < |images| ==> ViewInRange(buffers, images[i])
    ensures r.Ok? ==> |r.value| == |images|
  {
    Collect(ImageResults(basePath, buffers, images, read))
  }

  /** A buffer-view image loads exactly when the view lies inside its buffer and the MIME
      type is PNG or JPEG; the bytes are then exactly the view's range, there is no URI,
      and the format is four channels for PNG and three for JPEG. */
  lemma {:induction false} ViewImageLoads(basePath: Option<string>, buffers: seq<BufferData>, image: ImageSource, read: ReadFile)
    requires image.ViewImage? && ViewInRange(buffers, image)
    ensures var r := LoadImageData(basePath, buffers, image, read);
      var bytes := buffers[image.buffer].data;
      (r.Ok? <==> image.offset + image.length <= |bytes| && (image.mimeType == PNG || image.mimeType == JPEG)) &&
      (r.Ok? ==>
        |r.value.data| == image.length &&
        (forall k :: 0 <= k < image.length ==> r.value.data[k] == bytes[image.offset + k]) &&
        r.value.uri.None? &&
        (r.value.format == R8G8B8A8 <==> image.mimeType == PNG) &&
        (r.value.format == R8G8B8 <==> image.mimeType == JPEG))
  {
  }

  /** The bounds check comes first: a view past the end of its buffer is reported as such
      whatever its MIME type. */
  lemma {:induction false} ViewImageBoundsError(basePath: Option<string>, buffers: seq<BufferData>, image: ImageSource, read: ReadFile)
    requires image.ViewImage? && ViewInRange(buffers, image)
    requires image.offset + image.length > |buffers[image.buffer].data|
    ensures var r := LoadImageData(basePath, buffers, image, read);
      r.Err? && Contains(r.error.message, "Image view exceeds buffer bounds")
  {
    var lit := "Image view exceeds buffer bounds (";
    var sizes := NatToString(image.offset + image.length) + " > " + NatToString(|buffers[image.buffer].data|) + ")";
    assert LoadImageData(basePath, buffers, image, read).error.message == lit + sizes;
    assert "Image view exceeds buffer bounds" <= lit;
    ContainsPrefix(lit, "Image view exceeds buffer bounds");
    ContainsExtended(lit, sizes, "Image view exceeds buffer bounds");
  }

  /** A view inside its buffer with a MIME type other than PNG or JPEG is reported as
      unsupported. */
  lemma {:induction false} ViewImageMimeError(basePath: Option<string>, buffers: seq<BufferData>, image: ImageSource, read: ReadFile)
    requires image.ViewImage? && ViewInRange(buffers, image)
    requires image.offset + image.length <= |buffers[image.buffer].data|
    requires image.mimeType != PNG && image.mimeType != JPEG
    ensures var r := LoadImageData(basePath, buffers, image, read);
      r.Err? && Contains(r.error.message, "Unsupported image mime type")
  {
    var lit := "Unsupported image mime type: ";
    assert "Unsupported image mime type" <= lit;
    ContainsPrefix(lit, "Unsupported image mime type");
    ContainsExtended(lit, image.mimeType, "Unsupported image mime type");
  }

  /** A URI image needs a base directory, checked before any read, and then loads exactly
      when the joined path can be read; it remembers its URI, holds the file's bytes and
      never fails on its MIME type. */
  lemma {:induction false} UriImageLoads(basePath: Option<string>, buffers: seq<BufferData>, uri: string, mimeType: Option<string>, read: ReadFile)
    ensures var r := LoadImageData(basePath, buffers, UriImage(uri, mimeType), read);
      (basePath.None? ==> r == Err(LoadImageDataError("Base path required for external images", None))) &&
      (r.Ok? <==> basePath.Some? && read(JoinPath(basePath.value, uri)).Ok?) &&
      (r.Ok? ==> r.value == ImageData(read(JoinPath(basePath.value, uri)).value, Some(uri), UriFormat(mimeType)))
  {
  }

  /** An unreadable file is reported as "Failed to read image" with the I/O error as source. */
  lemma {:induction false} UriImageReadFailure(base: string, buffers: seq<BufferData>, uri: string, mimeType: Option<string>, read: ReadFile)
    requires read(JoinPath(base, uri)).Err?
    ensures var r := LoadImageData(Some(base), buffers, UriImage(uri, mimeType), read);
      r.Err? && Contains(r.error.message, "Failed to read image") &&
      r.error.source == Some(read(JoinPath(base, uri)).error)
  {
    var lit := "Failed to read image at ";
    assert "Failed to read image" <= lit;
    ContainsPrefix(lit, "Failed to read image");
    ContainsExtended(lit, JoinPath(base, uri), "Failed to read image");
  }

  /** A URI image's format depends only on whether its declared type is PNG. */
  lemma {:induction false} UriFormatMapping(mimeType: Option<string>)
    ensures UriFormat(mimeType) == R8G8B8A8 <==> mimeType == Some(PNG)
    ensures UriFormat(mimeType) == R8G8B8 <==> mimeType != Some(PNG)
    ensures UriFormat(Some(JPEG)) == R8G8B8 && UriFormat(None) == R8G8B8
  {
  }

  /** All or nothing: the document's images load exactly when each does, one per image in
      order. */
  lemma {:induction false} LoadImagesAllOrNothing(basePath: Option<string>, buffers: seq<BufferData>, images: seq<ImageSource>, read: ReadFile)
    requires forall i :: 0 <= i < |images| ==> ViewInRange(buffers, images[i])
    ensures var r := LoadImages(basePath, buffers, images, read);
      r.Ok? <==> forall i :: 0 <= i < |images| ==> LoadImageData(basePath, buffers, images[i], read).Ok?
    ensures var r := LoadImages(basePath, buffers, images, read);
      r.Ok? ==>
        (|r.value| == |images| &&
         forall i :: 0 <= i < |images| ==> r.value[i] == LoadImageData(basePath, buffers, images[i], read).value)
  {
    var rs := ImageResults(basePath, buffers, images, read);
    CollectOk(rs);
    assert AllOk(rs) <==> forall i :: 0 <= i < |images| ==> LoadImageData(basePath, buffers, images[i], read).Ok?;
  }

  /** Otherwise the error is that of the first image that fails. */
  lemma {:induction false} LoadImagesFirstError(basePath: Option<string>, buffers: seq<BufferData>, images: seq<ImageSource>, read: ReadFile, k: nat)
    requires forall i :: 0 <= i < |images| ==> ViewInRange(buffers, images[i])
    requires k < |images| && LoadImageData(basePath, buffers, images[k], read).Err?
    requires forall j :: 0 <= j < k ==> LoadImageData(basePath, buffers, images[j], read).Ok?
    ensures LoadImages(basePath, buffers, images, read) == Err(LoadImageData(basePath, buffers, images[k], read).error)
  {
    CollectFirstError(ImageResults(basePath, buffers, images, read), k);
  }
}
