/** glTF buffer loading (src/res/buffer.rs), following section 3.6 of the glTF 2.0
    specification: a buffer's bytes come either from a file named by its URI,
    resolved against the document's base directory, or from the binary chunk
    of a GLB container. File reads are a function parameter. */
module GltfBuffer {
  import opened Scalar
  import opened Wrappers
  import opened Text

  /** Where a buffer's bytes live, `gltf::buffer::Source`. */
  datatype BufferSource = Uri(uri: string) | Bin

  datatype BufferData = BufferData(data: seq<byte>, uri: Option<string>)

  /** An I/O error of the file system, carried as the error's source. */
  datatype IoError = IoError(kind: string)

  /** `std::fs::read` on a path. */
  type ReadFile = string -> Result<seq<byte>, IoError>

  datatype LoadBufferDataError = LoadBufferDataError(message: string, source: Option<IoError>)

  /** `Display for LoadBufferDataError`: a fixed prefix, then the message, which can be
      read back from the display. */
  function DisplayBufferError(e: LoadBufferDataError): (d: string)
    ensures "Buffer loading error: " <= d
    ensures d[|"Buffer loading error: "|..] == e.message
  {
    "Buffer loading error: " + e.message
  }

  /** The `Buffer [i]: ` prefix every message starts with. */
  function IndexPrefix(i: nat): string
  {
    "Buffer [" + NatToString(i) + "]: "
  }

  /** The closure `load_gltf_buffers` maps over buffer `i`: every error names the buffer's
      index, and a loaded buffer remembers a URI exactly when it came from one. */
  function LoadBuffer(i: nat, source: BufferSource, blob: Option<seq<byte>>, basePath: Option<string>, read: ReadFile)
    : (r: Result<BufferData, LoadBufferDataError>)
    ensures r.Err? ==> IndexPrefix(i) <= r.error.message
    ensures r.Ok? ==> (r.value.uri.Some? <==> source.Uri?)
  {
    match source
    case Uri(uri) =>
      if basePath.None? then
        Err(LoadBufferDataError(IndexPrefix(i) + "Base path required for external URI '" + uri + "'", None))
      else
        var path := JoinPath(basePath.value, uri);
        var contents := read(path);
        if contents.Err? then
          Err(LoadBufferDataError(IndexPrefix(i) + "Failed to read '" + path + "'", Some(contents.error)))
        else
          Ok(BufferData(contents.value, Some(uri)))
    case Bin =>
      if blob.None? then
        Err(LoadBufferDataError(IndexPrefix(i) + "Missing binary data for embedded buffer", None))
      else
        Ok(BufferData(blob.value, None))
  }

  /** The per-buffer results, in document order. */
  function BufferResults(sources: seq<BufferSource>, blob: Option<seq<byte>>, basePath: Option<string>, read: ReadFile)
    : (rs: seq<Result<BufferData, LoadBufferDataError>>)
    ensures |rs| == |sources|
    ensures forall i :: 0 <= i < |sources| ==> rs[i] == LoadBuffer(i, sources[i], blob, basePath, read)
  {
    seq(|sources|, i requires 0 <= i < |sources| => LoadBuffer(i, sources[i], blob, basePath, read))
  }

  /** `load_gltf_buffers`: every buffer of the document, in order, or the first error. */
  function LoadBuffers(sources: seq<BufferSource>, blob: Option<seq<byte>>, basePath: Option<string>, read: ReadFile)
    : (r: Result<seq<BufferData>, LoadBufferDataError>)
    ensures r.Ok? ==> |r.value| == |sources|
  {
    Collect(BufferResults(sources, blob, basePath, read))
  }

  /** `to_vec`: the bytes of each buffer, in order. */
  function ToVec(buffers: seq<BufferData>): (r: seq<seq<byte>>)
    ensures |r| == |buffers|
    ensures forall i :: 0 <= i < |buffers| ==> r[i] == buffers[i].data
    decreases |buffers|
  {
    if buffers == [] then [] else [buffers[0].data] + ToVec(buffers[1..])
  }

  /** A URI buffer loads exactly when there is a base directory and the joined path
      can be read; it then holds the file's bytes and remembers its URI. */
  lemma {:induction false} UriBufferLoads(i: nat, uri: string, blob: Option<seq<byte>>, basePath: Option<string>, read: ReadFile)
    ensures var r := LoadBuffer(i, Uri(uri), blob, basePath, read);
      r.Ok? <==> basePath.Some? && read(JoinPath(basePath.value, uri)).Ok?
    ensures var r := LoadBuffer(i, Uri(uri), blob, basePath, read);
      r.Ok? ==> r.value == BufferData(read(JoinPath(basePath.value, uri)).value, Some(uri))
  {
  }

  /** An embedded buffer loads exactly when the container has a binary chunk; it then
      holds that chunk and has no URI. */
  lemma {:induction false} EmbeddedBufferLoads(i: nat, blob: Option<seq<byte>>, basePath: Option<string>, read: ReadFile)
    ensures var r := LoadBuffer(i, Bin, blob, basePath, read);
      (r.Ok? <==> blob.Some?) && (r.Ok? ==> r.value == BufferData(blob.value, None))
  {
  }

  /** Every error names the buffer's index, and only a read failure carries an I/O source;
      a URI buffer without a base directory fails before the file is read. */
  lemma {:induction false} BufferErrorsNameTheIndex(i: nat, source: BufferSource, blob: Option<seq<byte>>, basePath: Option<string>, read: ReadFile)
    ensures var r := LoadBuffer(i, source, blob, basePath, read);
      r.Err? ==> IndexPrefix(i) <= r.error.message
    ensures var r := LoadBuffer(i, source, blob, basePath, read);
      r.Err? && r.error.source.Some? ==>
        source.Uri? && basePath.Some? && read(JoinPath(basePath.value, source.uri)) == Err(r.error.source.value)
    ensures source.Uri? && basePath.None? ==>
      LoadBuffer(i, source, blob, basePath, read) ==
      LoadBuffer(i, source, blob, basePath, (p: string) => Err(IoError("unreadable")))
  {
    var r := LoadBuffer(i, source, blob, basePath, read);
    if r.Err? {
      var rest := r.error.message[|IndexPrefix(i)|..];
      assert r.error.message == IndexPrefix(i) + rest;
    }
  }

  /** A buffer whose file cannot be read is reported with a message containing
      "Failed to read", also once the error is displayed. */
  lemma {:induction false} ReadFailureSaysFailedToRead(i: nat, uri: string, blob: Option<seq<byte>>, base: string, read: ReadFile)
    requires read(JoinPath(base, uri)).Err?
    ensures var r := LoadBuffer(i, Uri(uri), blob, Some(base), read);
      r.Err? && Contains(r.error.message, "Failed to read") &&
      Contains(DisplayBufferError(r.error), "Failed to read")
  {
    var path := JoinPath(base, uri);
    var pre := IndexPrefix(i);
    assert "Failed to read" <= "Failed to read '";
    ContainsWithin(pre, "Failed to read '", path, "Failed to read");
    ContainsExtended(pre + "Failed to read '" + path, "'", "Failed to read");
    ContainsPrefixed("Buffer loading error: ", pre + "Failed to read '" + path + "'", "Failed to read");
  }

  /** All or nothing: the document's buffers load exactly when each does, one per source
      in order. */
  lemma {:induction false} LoadBuffersAllOrNothing(sources: seq<BufferSource>, blob: Option<seq<byte>>, basePath: Option<string>, read: ReadFile)
    ensures var r := LoadBuffers(sources, blob, basePath, read);
      r.Ok? <==> forall i :: 0 <= i < |sources| ==> LoadBuffer(i, sources[i], blob, basePath, read).Ok?
    ensures var r := LoadBuffers(sources, blob, basePath, read);
      r.Ok? ==>
        (|r.value| == |sources| &&
         forall i :: 0 <= i < |sources| ==> r.value[i] == LoadBuffer(i, sources[i], blob, basePath, read).value)
  {
    var rs := BufferResults(sources, blob, basePath, read);
    CollectOk(rs);
    assert AllOk(rs) <==> forall i :: 0 <= i < |sources| ==> LoadBuffer(i, sources[i], blob, basePath, read).Ok?;
  }

  /** Otherwise the error is that of the first buffer that fails. */
  lemma {:induction false} LoadBuffersFirstError(sources: seq<BufferSource>, blob: Option<seq<byte>>, basePath: Option<string>, read: ReadFile, k: nat)
    requires k < |sources| && LoadBuffer(k, sources[k], blob, basePath, read).Err?
    requires forall j :: 0 <= j < k ==> LoadBuffer(j, sources[j], blob, basePath, read).Ok?
    ensures LoadBuffers(sources, blob, basePath, read) == Err(LoadBuffer(k, sources[k], blob, basePath, read).error)
  {
    CollectFirstError(BufferResults(sources, blob, basePath, read), k);
  }
}
