# A verified model of the CPU side of a progressive wgpu ray tracer

This Dafny project models the parts of the Winit/WGPU renderer that hold state
or logic on the CPU.

- **Sample accumulation.** `RenderProgress` counts accumulated samples per pixel. It tells the GPU kernel how many samples to take each frame and when to clear the image.
- **Parameter validation.** `RenderParams::validate` checks the sampling budget, the viewport and the depth-of-field camera.
- **Render-state protocol.** `Raytracer` keeps the render parameters, the progress and the frame counter across `render_frame` and `set_render_params`.
- **Scene encoding.** Each ray-casting material becomes a tagged `GpuMaterial` record. Its texture descriptors point into one append-only global texture array. Spheres with an emissive material make up the light-index list.
- **Textures and sphere records.** These are the values the encoder consumes.
- **glTF loading.** Buffers and images are loaded as in sections 3.6 and 3.8 of the glTF 2.0 specification, with all-or-nothing collection and first-error reporting.
- **Containers.** The resource `Storage` handle table, the application scene (`AppScene`) and the FPS counter's window of 8 frame times.

Modelling choices:

- Rust's `u32` is the newtype `u32`, and a cast or addition that wraps is written out with `WrapU32`. The one exception is the sum `num + accumulated` in `RenderProgress::next_frame`. Its wrapping form is `ProgressStepWrapping`, but the classes run the corrected full-precision step `ProgressStep` (see "## Findings").
- `f32` is `F32`: a finite real, a signed infinity or NaN, with IEEE comparisons. Rounding is not modelled.
- A derived `PartialEq` on a record with float fields is fieldwise IEEE equality (`F32Eq`), so a record holding a NaN is not equal even to itself.
- File reads (`std::fs::read`) are a function parameter applied to the joined path.
- The external sky model and `T::load` are function parameters too.
- GPU objects are not modelled. A uniform or storage buffer is modelled by the contents the CPU last wrote to it.

In the repository, the type `Camera` has no `rccp` field, yet `validate` and `Raytracer::new` use one. The model gives the camera an optional `RaycastCameraParams` (vertical field of view in degrees, aperture, focus distance), as those uses require.

## Model

| member | source | states |
|---|---|---|
| Scalar.WrapU32 | src/res/material.rs:210 | `as u32` on a length: the value itself below 2^32, otherwise congruent to it modulo 2^32 |
| Scalar.ScaleChannel | src/res/texture/mod.rs:43-53 | a channel times `scale / 255` is finite for a finite scale, lies in [0, scale] for a non-negative one, and is NaN for a NaN scale |
| Scalar.UnitScaleChannelInUnitRange | src/res/texture/mod.rs:33-35 | at scale 1 every channel lies in [0, 1] |
| Scalar.F32EqIsEqualityOffNaN | src/core/raytracer/sky.rs:14 | `f32` equality is structural equality away from NaN, and NaN equals nothing, not even itself |
| Wrappers.Collect | src/res/buffer.rs:96 | `collect` into `Result<Vec<_>>`: a success has one value per input |
| Wrappers.CollectOk | src/res/image.rs:116-118 | the collection succeeds exactly when every element does, and keeps every value in order |
| Wrappers.CollectFirstError | src/res/buffer.rs:59-96 | a failing collection returns the error of the first failing element |
| Text.JoinPath | src/res/buffer.rs:69 | `Path::join`: an absolute relative path replaces the base; otherwise the base and the path are joined directly when the base is empty or ends in '/', and with one '/' between them when it does not |
| Texture.EmptyDescriptor | src/res/texture/mod.rs:17-25 | the empty slot is width 0, height 0, offset 0xffffffff |
| Texture.NewFromScaledImage | src/res/texture/mod.rs:37-57 | always `Ok`; the image's dimensions; one pixel per image pixel, each the scaled RGB of the source pixel; data length = width × height |
| Texture.NewFromImage | src/res/texture/mod.rs:33-35 | is `new_from_scaled_image` at scale 1 |
| Texture.NewFromColor | src/res/texture/mod.rs:59-64 | a 1×1 texture whose only pixel is the colour's three components, so its data length is width × height |
| Texture.NewFromImageChannelsInUnitRange | src/res/texture/mod.rs:33-57 | every channel of an unscaled image texture lies in [0, 1] |
| Sphere.New | src/math/sphere.rs:13-20 | centre stored as (x, y, z, 1), radius and material index unchanged, padding the pair of zero words `[0, 0]` |
| Sphere.ReprCFieldsInOrder | src/math/sphere.rs:3-10 | under `#[repr(C)]` every field is aligned to its type, and the fields follow one another in declaration order without overlap |
| Sphere.LayoutIsPacked | src/math/sphere.rs:3-10 | the `#[repr(C)]` layout of the field types `Vec4`, `f32`, `u32`, `[u32; 2]` gives exactly the commented offsets 0, 16, 20 and 24 with no gap, and a 32-byte record whose size is a multiple of the centre's 16-byte alignment |
| Material.DescriptorAt | src/res/material.rs:205-217 | a descriptor has its texture's dimensions and, while the array is shorter than 2^32, offset = the array's old length |
| Material.GlobalTextureData.Append | src/res/material.rs:205-217 | appends exactly the texture's pixels after the unchanged prefix and returns the descriptor at the old length |
| Material.GlobalTextureData.constructor | src/core/raytracer/mod.rs:153 | the global texture array starts empty |
| Material.NewLambertian | src/res/material.rs:156-163 | tag 0, desc1 = the albedo's placement, desc2 empty, x = 0, one texture appended |
| Material.NewMetal | src/res/material.rs:165-172 | tag 1, desc1 = the albedo's placement, desc2 empty, x = fuzz, one texture appended |
| Material.NewDielectric | src/res/material.rs:174-181 | tag 2, both descriptors empty, x = refraction index, nothing appended |
| Material.NewCheckerboard | src/res/material.rs:183-194 | tag 3; appends its first then its second texture, so desc2's offset is desc1's plus the first texture's length |
| Material.NewEmissive | src/res/material.rs:196-203 | tag 4, desc1 = the emission texture's placement, desc2 empty, x = 0 |
| Material.ConcatAppend | src/res/material.rs:211 | appending texture lists appends their pixel arrays |
| Material.ConcatLength | src/res/material.rs:211 | the array's length is the sum of the appended textures' pixel counts |
| Material.PlacedAt | src/res/material.rs:209-216 | texture k is described at the end of the pixels of the textures before it |
| Material.PlacedAppend | src/res/material.rs:205-217 | placing two lists in turn places the second from the end of the first |
| Material.PlacementRoundTrip | src/res/material.rs:205-217 | slicing the array at a descriptor's offset for the texture's length gives back exactly that texture's pixels |
| Material.PlacementsAdjacent | src/res/material.rs:205-217 | the first offset is 0 and each next offset is the previous one plus that texture's length, so descriptors never overlap |
| Material.EncodeMaterialAppends | src/core/raytracer/mod.rs:156-173 | one material step appends exactly its textures (odd before even for a checkerboard, as the call site passes them) and gets its tag and scalar |
| Material.EncodeMaterial | src/core/raytracer/mod.rs:156-173 | one step keeps every pixel already in the array as a prefix, and the record carries its variant's tag |
| Material.EncodeMaterials | src/core/raytracer/mod.rs:153-176 | one GPU record per material |
| Material.EncodeMaterialsTextureData | src/core/raytracer/mod.rs:153-176 | the shared texture array after the loop is every material's textures concatenated in material order |
| Material.EncodeMaterialsDescriptors | src/core/raytracer/mod.rs:153-176 | there is one record per material, and the descriptors are the textures' back-to-back placements from offset 0 |
| Material.EncodeMaterialsLayout | src/core/raytracer/mod.rs:153-176 | the final array is all the materials' textures concatenated in order, and the descriptors are their back-to-back placements from 0 |
| Material.EncodeMaterialsRecords | src/core/raytracer/mod.rs:156-175 | record i is material i's encoding against the array left by materials 0..i-1, with its fixed tag and scalar |
| Raytracer.DefaultSamplingParams | src/core/raytracer/mod.rs:446-454 | the default budget (256 samples, 1 per frame, 8 bounces) passes the divisibility check |
| Raytracer.ProgressStep | src/core/raytracer/mod.rs:467-505 | the corrected `next_frame` step: a frame takes either `num` samples or none, and the count grows by exactly the samples taken |
| Raytracer.ProgressStepWrapping | src/core/raytracer/mod.rs:467-505 | `next_frame` as written: the count grows by the samples taken modulo 2^32, and the step equals the corrected one whenever `num + accumulated` fits in a `u32` |
| Raytracer.ClearOnlyAfterReset | src/core/raytracer/mod.rs:475-504 | a clear is requested exactly when the count is 0, bounces are passed through, and the uploaded count is the stored count |
| Raytracer.ProgressStepKeepsInvariant | src/core/raytracer/mod.rs:467-505 | under a valid budget the count stays a multiple of the step and within the maximum, and each frame either adds one step or takes no samples and keeps the count |
| Raytracer.InvariantBoundsByMax | src/core/raytracer/mod.rs:537 | with a non-zero maximum, the invariant keeps the count within it |
| Raytracer.ZeroMaximumOvershoots | src/core/raytracer/mod.rs:475-483 | a maximum of 0 passes the divisibility check and the first frame stores a count above it |
| Raytracer.AccumulatedAfterFrames | src/core/raytracer/mod.rs:467-509 | from a reset, frame k brings the count to min(k, max/num) × num |
| Raytracer.FramesAtMax | src/core/raytracer/mod.rs:497-504 | once at a non-zero maximum, the count stays there |
| Raytracer.CompletedRenderHalts | src/core/raytracer/mod.rs:497-504 | at the maximum: zero samples, count unchanged, no clear |
| Raytracer.RenderProgress.constructor | src/core/raytracer/mod.rs:461-465 | a fresh progress has accumulated nothing |
| Raytracer.RenderProgress.NextFrame | src/core/raytracer/mod.rs:467-505 | returns and stores the corrected step `ProgressStep`, which compares `num + accumulated` in full precision; it agrees with the source's `u32` sum whenever that sum does not wrap (see "## Findings") |
| Raytracer.RenderProgress.Reset | src/core/raytracer/mod.rs:507-509 | the count is 0, so the next frame clears |
| Raytracer.RenderProgress.AccumulatedSamples | src/core/raytracer/mod.rs:511-513 | the getter returns the stored count |
| Raytracer.ResetKeepsInvariant | src/core/raytracer/mod.rs:507-509 | a count of 0 satisfies the accumulation invariant under every valid budget |
| Raytracer.Validate | src/core/raytracer/mod.rs:534-573 | accepted parameters have a non-zero step that divides the maximum and a non-empty viewport; `validate` itself never reports a sky-model error |
| Raytracer.ValidateIsFirstFailingCheck | src/core/raytracer/mod.rs:534-573 | `validate` is `Ok` exactly when all five checks pass, and otherwise returns the error of the first failing check in the order divisibility, viewport, vfov, aperture, focus distance |
| Raytracer.ValidateBoundaries | src/core/raytracer/mod.rs:551-567 | the ranges are inclusive (90 degrees, apertures 0 and 1 pass), 7 is not a multiple of 3, a zero width or height fails, and NaN focus distance passes |
| Raytracer.RenderParamsEqIsEqualityWithoutNaN | src/core/raytracer/mod.rs:525 | the derived `PartialEq` of `RenderParams` is structural equality for parameters without a NaN, and parameters with a NaN equal nothing |
| Raytracer.NaNParamsDifferFromThemselves | src/core/raytracer/mod.rs:369-371 | stored parameters that hold a NaN are not equal to themselves, so passing them again does not take the early `Ok(())` |
| Raytracer.LightIndicesOf | src/core/raytracer/mod.rs:192-203 | the first n spheres give at most n light indices |
| Raytracer.LightIndices | src/core/raytracer/mod.rs:192-203 | there are at most as many light indices as spheres |
| Raytracer.LightIndicesOfExact | src/core/raytracer/mod.rs:192-203 | the indices among the first n spheres are exactly their emissive ones, in strictly ascending order |
| Raytracer.LightIndicesAreEmissiveSpheres | src/core/raytracer/mod.rs:192-203 | the light-index list holds exactly the indices of the spheres whose material is emissive, ascending |
| Raytracer.EncodeSceneMaterials | src/core/raytracer/mod.rs:153-176 | the material loop produces exactly the encoding `EncodeMaterials` specifies |
| Raytracer.SphereUploadAsWrittenReadsTheVecValue | src/core/raytracer/mod.rs:141-148 | as written, a non-empty scene's upload begins with the `Vec` value's own 24 bytes, reads past that value, and does not start at the spheres |
| Raytracer.SphereUploadIsTheSpheres | src/core/raytracer/mod.rs:143 | the intended upload is exactly the element storage, with sphere k in the k-th 32-byte slot |
| Raytracer.Raytracer.Init | src/core/raytracer/mod.rs:301-318 | frame number 1, a fresh progress, the given parameters stored |
| Raytracer.Raytracer.RenderFrame | src/core/raytracer/mod.rs:322-361 | one corrected progress step (`ProgressStep`, see "## Findings") is taken and uploaded; the frame data is [width, height, frame number before the increment]; the counter then goes up by one, wrapping at 2^32; the object invariant is kept |
| Raytracer.Raytracer.SetRenderParams | src/core/raytracer/mod.rs:363-409 | parameters equal under the derived `PartialEq` (never true when they hold a NaN): `Ok` and nothing changes; a validation or sky-model error: that error and nothing changes; otherwise the parameters are stored and the progress is reset |
| Raytracer.NewRaytracer | src/core/raytracer/mod.rs:26-320 | validation first, then the sky model; on success the buffers hold the encoded materials, the textures, the lights and the spheres (the intended sphere upload, see "## Findings"), with frame number 1 and zero progress |
| GltfBuffer.ToVec | src/res/buffer.rs:100-102 | the buffers' bytes, same count, same order |
| GltfBuffer.DisplayBufferError | src/res/buffer.rs:16-20 | the display is "Buffer loading error: " followed by the message, which can be read back from it |
| GltfBuffer.LoadBuffer | src/res/buffer.rs:59-95 | every error of buffer i names its index, and a loaded buffer keeps a URI exactly when its source is one |
| GltfBuffer.LoadBuffers | src/res/buffer.rs:55-97 | a success holds one buffer per source |
| GltfBuffer.UriBufferLoads | src/res/buffer.rs:62-83 | a URI buffer loads exactly when there is a base path and the joined path reads; it holds those bytes and `Some(uri)` |
| GltfBuffer.EmbeddedBufferLoads | src/res/buffer.rs:84-91 | an embedded buffer loads exactly when there is a binary chunk; it holds the chunk and no URI |
| GltfBuffer.BufferErrorsNameTheIndex | src/res/buffer.rs:69-90 | every error starts with "Buffer [i]: ", only a read failure carries an I/O source, and a missing base path fails before any read |
| GltfBuffer.ReadFailureSaysFailedToRead | src/res/buffer.rs:77-82 | a read failure's message, also when displayed, contains "Failed to read" |
| GltfBuffer.LoadBuffersAllOrNothing | src/res/buffer.rs:59-96 | the buffers load exactly when each does, one per buffer in order |
| GltfBuffer.LoadBuffersFirstError | src/res/buffer.rs:59-96 | otherwise the error is the first failing buffer's |
| GltfImage.ViewImageLoads | src/res/image.rs:79-100 | a view image loads exactly when the view fits in its buffer and the type is PNG or JPEG; the bytes are exactly the view's range, no URI, 4 channels for PNG and 3 for JPEG |
| GltfImage.DisplayImageError | src/res/image.rs:19-23 | the display is "Image loading error: " followed by the message, which can be read back from it |
| GltfImage.LoadImageData | src/res/image.rs:48-109 | a loaded image keeps a URI exactly when it came from one, and a view image holds as many bytes as the view is long |
| GltfImage.LoadImages | src/res/image.rs:111-119 | a success holds one image per glTF image |
| GltfImage.UriFormat | src/res/image.rs:66-75 | a URI image is always 8-bit RGBA or RGB |
| GltfImage.ViewImageBoundsError | src/res/image.rs:84-89 | the bounds check comes first: a view past its buffer's end fails with "Image view exceeds buffer bounds" whatever its type |
| GltfImage.ViewImageMimeError | src/res/image.rs:91-97 | an in-bounds view whose type is neither PNG nor JPEG fails with "Unsupported image mime type" |
| GltfImage.UriImageLoads | src/res/image.rs:54-78 | a missing base path fails before any read; otherwise the image loads exactly when the joined path reads, with `Some(uri)` and the file's bytes, never failing on its type |
| GltfImage.UriImageReadFailure | src/res/image.rs:59-64 | a read failure reports "Failed to read image" with the I/O error as its source |
| GltfImage.UriFormatMapping | src/res/image.rs:66-75 | a URI image is 4-channel exactly when declared PNG; JPEG, unknown and absent types give 3 channels |
| GltfImage.LoadImagesAllOrNothing | src/res/image.rs:111-119 | the images load exactly when each does, one per image in document order |
| GltfImage.LoadImagesFirstError | src/res/image.rs:111-119 | otherwise the error is the first failing image's |
| Storage.FirstFailure | src/res/storage.rs:42-47 | the number of leading loads that succeed, and the one after them fails |
| Storage.FirstFailureAt | src/res/storage.rs:42-47 | the first failing index characterises that number |
| Storage.Storage.constructor | src/res/storage.rs:11-22 | a new or default table is empty |
| Storage.Storage.Load | src/res/storage.rs:33-40 | a failed load returns its error and stores nothing; a successful one stores the resource under a key no stored resource had, other entries unchanged |
| Storage.Storage.LoadAll | src/res/storage.rs:42-47 | loads in order until the first failure, keeps what it stored, returns all handles in order or the first error |
| Storage.Storage.Get | src/res/storage.rs:49-51 | the stored resource, exactly when the handle is stored |
| Storage.Storage.GetMut | src/res/storage.rs:53-55 | an edit through the reference changes only that handle's resource, and only if it is stored |
| Storage.Storage.Remove | src/res/storage.rs:57-59 | returns the stored resource; afterwards the handle is neither contained nor gettable |
| Storage.Storage.Contains | src/res/storage.rs:61-63 | contained exactly when `get` finds it |
| Scene.AppScene.constructor | src/scene/mod.rs:22-30 | no entities, camera "main_camera", no lights, ambient 0.1 grey, no sky box |
| Scene.AppScene.Default | src/scene/mod.rs:11-18 | the derived default differs from `new`: empty camera name, black ambient |
| Scene.AppScene.AddEntity | src/scene/mod.rs:33-35 | the entity is stored under its name, replacing a namesake; other entities and fields unchanged |
| Scene.AppScene.SetActiveCamera | src/scene/mod.rs:38-40 | sets the name without checking it; entities unchanged |
| Scene.AppScene.Update | src/scene/mod.rs:52-54 | changes nothing |
| Fps.LastNStep | src/gui/fps.rs:16-21 | appending and dropping the oldest beyond n keeps exactly the last n values |
| Fps.FpsCounter.constructor | src/gui/fps.rs:10-14 | the window starts empty |
| Fps.FpsCounter.Update | src/gui/fps.rs:16-21 | `dt` goes at the back; the oldest is dropped only when there would be more than 8; the window is always the last min(n, 8) values received, in order |
| Raytracer.ProgressStepWrappingOverflows | src/core/raytracer/mod.rs:469-494 | with max = num = 2^31 the as-written step wraps to 0, keeps sampling past the budget and clears the image again |

## Left out

- Texture.Texture.AsSlice, Texture.Texture.Dimensions: the field reads of texture/mod.rs:66-68 and 70-72, kept without contracts of their own. The pixel count width × height that every texture has comes from the three constructors, whose ensures state `WellFormed()`; `Texture`'s fields are private, so no other texture exists, but the datatype does not carry that as a type invariant.
- GPU work is not modelled: devices, queues, pipelines, bind groups, shaders, render passes and texture uploads. Only the CPU state around those calls is modelled.
- Raw byte views of records (`bytemuck`, unsafe slices) are not modelled, except the address range of the sphere upload (see "## Findings"). This includes the camera and sky uploads in `set_render_params`, whose byte count is `size_of::<Transform>()` rather than the record's size.
- The camera uniform buffer and the accumulation image's contents are left out. Only the image buffer's pixel count is kept.
- `SkyParams::to_sky_state` is a function parameter that may fail. Its trigonometry and the external sky-model library are not modelled, and neither is the record it builds (including its `[0, 2]` padding).
- `Raytracer::progress` and `FpsCounter::average_fps` are float divisions and are not modelled. The latter is NaN on an empty window.
- JPEG decoding in `new_from_scaled_image` is not modelled. The model starts from the decoded RGBA image; an open or decode failure panics in the source.
- Floating-point rounding is not modelled: `F32` values are exact reals.
- Raytracer.Validate: the `VfovOutOfRange` payload is the camera's `fov` as stored; the radians-to-degrees conversion of `to_degrees()` is not modelled.
- Raytracer.Validate: a zero step (the `%` panics) and a camera without ray-casting parameters (`todo!()`) are preconditions, not modelled outcomes.
- Raytracer.NewRaytracer: once validation and the sky model have succeeded, the source indexes `scene.materials` by each sphere's material index (src/core/raytracer/mod.rs:198) and panics on an out-of-range one; the model requires every index to be in range only in that case, and a scene with a bad index still gets the validation or sky error.
- Raytracer.NewRaytracer: the sphere buffer is modelled as holding the spheres, which is the intended upload. The source reads from the address of the `Vec` value instead (see "## Findings"), and what those bytes hold is not modelled.
- Raytracer.Raytracer.Init: stores the spheres as the sphere buffer's contents, the intended upload rather than the bytes the source reads (see "## Findings").
- Raytracer.RenderProgress.NextFrame: runs the corrected step `ProgressStep`. The source's wrapping `u32` sum is modelled separately as `ProgressStepWrapping`; the two agree unless `num + accumulated` exceeds 2^32 - 1.
- Raytracer.LightIndicesAreEmissiveSpheres: proved for scenes of at most 2^32 spheres, where `idx as u32` does not truncate.
- Raytracer.Raytracer.RenderFrame: `frame_number += 1` wraps at 2^32 as in a release build; a debug build would panic there instead.
- Raytracer.Raytracer.RenderFrame: the progress step is the corrected one, through `NextFrame`, so it never wraps the sample count.
- The camera's `PartialEq`, which the derive on `RenderParams` needs, is taken to be the derived fieldwise one over the fields the model gives the camera.
- GltfImage.LoadImageData: the buffer index of a view is a precondition. The source indexes `buffers` directly and would panic on a bad index, but the glTF document's index validation rules that out. The sum `start + length` is taken without `usize` overflow.
- Material.DescriptorAt: the offset is `len as u32` and truncates. The placement lemmas assume the whole array is shorter than 2^32 pixels.
- Storage.Storage: slot reuse, key versions, capacity and `debug_stats` are not modelled. Keys come from a counter that never repeats, which has the same observable effect: a removed handle never matches again.
- Storage.Storage.GetMut: the returned `&mut` reference is modelled as an edit function that the method applies in place.
- Scene.AppScene: entity contents are an abstract type, and the sky box is a resource handle.
- The test at src/res/image.rs:143-165 expects "Unsupported image mime type" for a URI image of type `image/webp`. The code maps every non-PNG URI image to three channels, and a missing file fails first with "Failed to read image". The model follows the code.

## Findings

| source | as written | input that shows it | evidently intended | confidence | as-written member | corrected member |
|---|---|---|---|---|---|---|
| src/core/raytracer/mod.rs:469-470 | `num + accumulated` is a `u32` addition, which wraps in a release build (and panics in a debug build) | `max = num = 2^31`, which `validate` accepts: the second frame's sum wraps to 0 ≤ max, so it takes another 2^31 samples past the budget and stores 0, and the third frame clears the image again | compare the sum without overflow, so the render halts at `max` | not executed; the wrap is certain for that input, but budgets that large are unusual | Raytracer.ProgressStepWrapping, Raytracer.ProgressStepWrappingOverflows | Raytracer.ProgressStep, Raytracer.ProgressStepKeepsInvariant |
| src/core/raytracer/mod.rs:144-148 | the sphere buffer is built from `from_raw_parts(&scene.spheres as *const _ as *const u8, size_of::<Sphere>() * len)`, which starts at the address of the `Vec` value (its pointer, capacity and length), not at its elements | any scene with at least one sphere: the first 24 bytes uploaded are the vector's pointer, capacity and length, and the read of 32 × len bytes runs past the 24-byte `Vec` value (undefined behaviour) | upload the elements, `bytemuck::cast_slice(scene.spheres.as_slice())`, which is commented out at line 143 | not executed; certain from the text for every non-empty scene | Raytracer.SphereUploadAsWritten, Raytracer.SphereUploadAsWrittenReadsTheVecValue | Raytracer.SphereUpload, Raytracer.SphereUploadIsTheSpheres |
