# LuxCore: bake engine lifecycle, film OpenCL set-up and the Blender export helpers

This project is a Dafny model of three parts of LuxCore, with proofs about them.

- **BakeCPURenderEngine** (`bakecpu.cpp`):
  - the constructor reads the `bake.maps.<tag>.*` properties into bake map descriptors;
  - the destructor;
  - `GetRenderState`;
  - `StartLockLess`, which checks the sampler and checks the render state's tag, restores the render state (seed + 1, cache hand-over), allocates and preprocesses the PhotonGI cache when none was restored, and sets up the path tracer;
  - `StopLockLess`, which deletes the cache.
- **The Film's OpenCL part** (`filmocl.cpp`):
  - `SetUpOCL` resets the OpenCL fields;
  - `CreateOCLContext` creates the context and selects the film's device: an explicit in-range index, otherwise the first GPU, otherwise none;
  - `DeleteOCLContext`.
- **The Python/Blender helpers** (`pyluxcoreforblender.cpp`):
  - `FindMaxValue` and `ThrowIfSizeMismatch`;
  - the eight `ConvertFilmChannelOutput_*` conversions, which write a Blender render pass (or a byte image) in place;
  - `Scene_DefineBlenderMesh`, `Scene_DefineBlenderMesh1` and `Scene_DefineBlenderMesh2`, which build one LuxCore mesh per Blender material;
  - the argument validation of `Scene_DefineBlenderStrands`, its per-strand point filter, the segment bookkeeping and the hair file header.

## Modules

| module | file | what it holds |
|---|---|---|
| `Wrappers` | `wrappers.dfy` | `Option`, `Result`, `Outcome` |
| `CTypes` | `ctypes.dfy` | C integer types and their conversions: `u_int` and `u_short` wrap-around, `(short)` and `(u_char)` casts, decimal text |
| `Properties` | `properties.dfy` | the LuxRays property bag: `Property::ExtractField`, `Get<string>`, `Get<u_int>` and defaults |
| `BakeCpu` | `bakecpu.dfy` | reading the bake maps |
| `BakeCpuEngine` | `bakecpu.dfy` | the engine as a class with the render state and the PhotonGI cache as objects |
| `FilmOcl` | `filmocl.dfy` | device filtering and selection, and the context, device and film classes |
| `BlenderFilm` | `blender_film.dfy` | the maximum scans, the size check and the conversions over arrays |
| `BlenderMesh` | `blender_mesh.dfy` | the mesh builder |
| `BlenderStrands` | `blender_strands.dfy` | strand validation and the filter |

## How the C++ is represented

- **Objects and calls:**
  - Deleting a C++ object sets its `live` field to false.
  - The engine records the collaborators it calls (`SetScene`, `Preprocess`, `ParseOptions`, …) in a `calls` trace. Contracts then state the order of those calls.
- **Numbers:**
  - Floats are `Float = Finite(real) | PosInf | NegInf | NaN`. Rounding is not modelled.
  - `u_int` and `u_short` counters wrap modulo 2^32 and 2^16.
- **Collaborator results as parameters:**
  - `GetAllUniqueSubNames("bake.maps")` is the parameter `mapKeys`.
  - Whether `PhotonGICache::FromProperties` returns a cache is the parameter `cacheEnabled`.
  - The devices a new context enumerates are the parameter `available`.
  - The result of opening the strands image file is the parameter `image`: `None` when it cannot be opened, otherwise its channel count.
- **Buffers and nulls:**
  - The Blender buffers are sequences. A null UV or colour layer is `None`.
  - Render passes and destination images are arrays, written in place.
- **Transformations:** a transformation is kept as its matrix, and `ApplyTransform` is not evaluated.
- **Symbolic values.** The model does not evaluate these; it stores a token naming the value:
  - a strand point's thickness: the root width, or the width tapered at a given step;
  - its colour: the white, image or vertex base, with the root, tip or interpolated tint;
  - mesh normals: the Blender vertex normal of a smooth corner, the face normal of a flat one.

## Model

| member | source | states |
|---|---|---|
| BakeCpu.ReadMapInfosSuccess | src/slg/engines/bakecpu/bakecpu.cpp:37-66 | the constructor's loop succeeds exactly when every bake map sub-name is read without error; it then yields one descriptor per sub-name, in the order of the sub-names |
| BakeCpu.ReadMapInfosFirstError | src/slg/engines/bakecpu/bakecpu.cpp:38-66 | a failing constructor throws the error of the first sub-name that cannot be read, and every earlier one reads |
| BakeCpu.ReadMapInfosPrefixFailure | src/slg/engines/bakecpu/bakecpu.cpp:38-66 | once the maps read so far fail, reading more maps cannot change the error: the loop stops at the first throw |
| BakeCpu.EmptyTagIsSyntaxError | src/slg/engines/bakecpu/bakecpu.cpp:40-42 | a sub-name with an empty third field raises the bake map syntax error naming that sub-name |
| BakeCpu.MapDefaults | src/slg/engines/bakecpu/bakecpu.cpp:44-63 | a map with none of its five properties defined reads as LIGHTMAP, file name `objectNameToBake`, 512 x 512, objects `[objectNameToBake]` |
| BakeCpu.MapTypeIsLightmap | src/slg/engines/bakecpu/bakecpu.cpp:49-51 | a `.type` of LIGHTMAP, or no `.type` at all, never gives the unknown bake map type error |
| BakeCpu.UnknownMapTypeRejected | src/slg/engines/bakecpu/bakecpu.cpp:49-53 | any other `.type` text fails with the unknown bake map type error carrying that text |
| BakeCpu.ObjectNamesInOrder | src/slg/engines/bakecpu/bakecpu.cpp:61-63 | the object names are the `.objectnames` values, one per index, in index order |
| BakeCpu.ReadMapInfoFromConfig | src/slg/engines/bakecpu/bakecpu.cpp:39-65 | the loop body computes the descriptor, or the error, that the property reading defines |
| BakeCpu.ReadBakeMaps | src/slg/engines/bakecpu/bakecpu.cpp:37-66 | the loop over the sub-names computes the descriptor list, or the first error |
| BakeCpuEngine.BakeCPURenderEngine.New | src/slg/engines/bakecpu/bakecpu.cpp:32-69 | construction fails with the map error, or gives a fresh engine holding the maps read, no cache and no start render state |
| BakeCpuEngine.BakeCPURenderEngine.FromInfos | src/slg/engines/bakecpu/bakecpu.cpp:32-33 | a new engine starts with no PhotonGI cache, no render state and nothing called |
| BakeCpuEngine.BakeCPURenderEngine.Destroy | src/slg/engines/bakecpu/bakecpu.cpp:71-73 | the destructor deletes the cache the engine holds, if any |
| BakeCpuEngine.BakeCPURenderEngine.GetRenderState | src/slg/engines/bakecpu/bakecpu.cpp:82-84 | a fresh BAKECPU render state with the engine's seed and the very cache object the engine holds |
| BakeCpuEngine.StartError | src/slg/engines/bakecpu/bakecpu.cpp:99-109 | the checks of StartLockLess in order: an RTPATHCPUSAMPLER sampler is refused first; otherwise a render state from another engine is refused |
| BakeCpuEngine.StartCalls | src/slg/engines/bakecpu/bakecpu.cpp:114-155 | the cache is preprocessed exactly when none was held and one was built, and SetScene is called exactly when a restored state carried a cache; the base class start comes last |
| BakeCpuEngine.BakeCPURenderEngine.RestoreRenderState | src/slg/engines/bakecpu/bakecpu.cpp:107-129 | the seed becomes the state's seed + 1, wrapping at 2^32; the cache moves from the state to the engine and is given the scene; the state is deleted |
| BakeCpuEngine.BakeCPURenderEngine.AllocateCacheIfNone | src/slg/engines/bakecpu/bakecpu.cpp:135-142 | a cache already held is kept and not preprocessed again; otherwise a cache is built when enabled and preprocessed with the render thread count |
| BakeCpuEngine.BakeCPURenderEngine.StartChecked | src/slg/engines/bakecpu/bakecpu.cpp:107-155 | after the checks pass: there is no start render state; the restored or allocated cache is what the path tracer gets; the pixel filter distribution exists; and the calls happen in order |
| BakeCpuEngine.BakeCPURenderEngine.StartLockLess | src/slg/engines/bakecpu/bakecpu.cpp:86-156 | fails exactly when StartError does, with its error, and then leaves every field and object as it was; otherwise everything StartChecked states |
| BakeCpuEngine.BakeCPURenderEngine.StopLockLess | src/slg/engines/bakecpu/bakecpu.cpp:158-165 | the base class stop, then the pixel filter distribution is deleted, then the cache is deleted and the engine holds none |
| BakeCpuEngine.CaptureAndResume | src/slg/engines/bakecpu/bakecpu.cpp:82-129 | a state captured from one engine and resumed on another gives the target seed + 1 and the same cache object, which the source engine still points at |
| BakeCpuEngine.StopAndCapture | src/slg/engines/bakecpu/bakecpu.cpp:82-165 | a state captured after the stop carries no cache, since the stop deleted it |
| BakeCpuEngine.CaptureAndStop | src/slg/engines/bakecpu/bakecpu.cpp:82-165 | a state captured before the stop points at a cache that the stop then deletes |
| FilmOcl.FilterOpenCL | src/slg/film/filmocl.cpp:49-50 | the filtered list holds exactly the OpenCL devices of the enumeration, and no more than it had |
| FilmOcl.FilterOpenCLAppend | src/slg/film/filmocl.cpp:49-50 | filtering keeps order and multiplicity: the filter of a concatenation is the concatenation of the filters |
| FilmOcl.FilterKeepsFirstGpu | src/slg/film/filmocl.cpp:49-65 | the GPU search over the filtered list finds the first GPU of the whole enumeration, and finds none exactly when it has none |
| FilmOcl.FirstGpuFromIsFirst | src/slg/film/filmocl.cpp:58-65 | the GPU search finds a GPU with no GPU before it, or reports none when there is no GPU |
| FilmOcl.SelectExplicitIndex | src/slg/film/filmocl.cpp:53-55 | an in-range `oclDeviceIndex` selects that device, whatever its type |
| FilmOcl.SelectFirstGpu | src/slg/film/filmocl.cpp:56-65 | an out-of-range index selects the first GPU, or none when there is no GPU |
| FilmOcl.SelectNoDevices | src/slg/film/filmocl.cpp:66-68 | with no OpenCL device nothing is selected |
| FilmOcl.SelectInRange | src/slg/film/filmocl.cpp:52-68 | a selected index is always a valid index of the filtered list |
| FilmOcl.SelectDeviceIndex | src/slg/film/filmocl.cpp:52-68 | the loop computes the selection rule above |
| FilmOcl.Context.AddIntersectionDevice | src/slg/film/filmocl.cpp:72-75 | one fresh device for the description is appended to the context |
| FilmOcl.Film.SetUpOCL | src/slg/film/filmocl.cpp:31-41 | both indices become -1; the context, the device and the tonemapped buffer become null |
| FilmOcl.Film.CreateOCLContext | src/slg/film/filmocl.cpp:43-90 | a fresh context on the film's platform; the selected description is the one the rule picks, and exactly one device without data parallel support is allocated for it; the OpenCL 1.1 warning appears exactly when that device is older; nothing aborts |
| FilmOcl.Film.DeleteOCLContext | src/slg/film/filmocl.cpp:92-96 | the context, if any, is deleted |
| BlenderFilm.MaxUIntIsMax | src/luxcore/pyluxcoreforblender.cpp:119-128 | the unsigned maximum is at least every element and is 0 or one of the elements |
| BlenderFilm.FindMaxValue | src/luxcore/pyluxcoreforblender.cpp:119-128 | the loop returns the largest of 0 and the first `buffersize` elements |
| BlenderFilm.MaxFiniteIsMax | src/luxcore/pyluxcoreforblender.cpp:131-140 | the float maximum is non-negative, at least every finite element, and 0 or one of them; infinities and NaN are skipped |
| BlenderFilm.FindMaxFloat | src/luxcore/pyluxcoreforblender.cpp:131-140 | the float specialisation's loop returns that maximum over the first `buffersize` elements |
| BlenderFilm.MaxFiniteLeast | src/luxcore/pyluxcoreforblender.cpp:131-140 | no float maximum exceeds an upper bound of 0 and the finite elements |
| BlenderFilm.NormalizedAtMostOne | src/luxcore/pyluxcoreforblender.cpp:176-185 | scaling by the factor of the whole buffer, `1 / max` or 0 when the maximum is 0, brings every finite value to at most 1 |
| BlenderFilm.ScaledAboveOne | src/luxcore/pyluxcoreforblender.cpp:208-209 | a value above a positive maximum is scaled to more than 1 |
| BlenderFilm.ShortScanAgrees | src/luxcore/pyluxcoreforblender.cpp:208-209 | the maximum of the first n floats is at most that of the whole buffer, and their factors are equal exactly when no finite float after the first n exceeds it |
| BlenderFilm.ThrowIfSizeMismatch | src/luxcore/pyluxcoreforblender.cpp:152-158 | the check fails exactly when the pass size, cast to `u_int`, differs from width x height; for non-negative sizes, exactly when they differ |
| BlenderFilm.NegativeWidthPasses | src/luxcore/pyluxcoreforblender.cpp:153 | after the `(u_int)` cast, a negative `int` pass width w matches the width w + 2^32 and fails against every width below 2^31 |
| BlenderFilm.ScaleAllAt | src/luxcore/pyluxcoreforblender.cpp:180-185 | element i of a scaled buffer is element i times k |
| BlenderFilm.ConvertFilmChannelOutput_1xFloat_To_1xFloatList | src/luxcore/pyluxcoreforblender.cpp:165-188 | a size mismatch fails and leaves the pass as it was; otherwise the pass holds the output, normalised by its maximum when asked |
| BlenderFilm.UvPixelsAt | src/luxcore/pyluxcoreforblender.cpp:212-228 | UV pixel q becomes u k, v k and a mask that is 1 exactly when either is non-zero, and 0 otherwise |
| BlenderFilm.ConvertFilmChannelOutput_UV_to_Blender_UV | src/luxcore/pyluxcoreforblender.cpp:193-229 | failure leaves the pass unchanged; otherwise the pass holds the 3-float UV pixels of the output, normalised by the factor of the maximum of its first width x height floats |
| BlenderFilm.UvScanAsWritten | src/luxcore/pyluxcoreforblender.cpp:207-228 | a finite u or v is at most 1 with the whole-buffer factor; with the factor as written it ends above 1 when it exceeds the short-scan maximum, and the two images agree when no float past the first width x height does |
| BlenderFilm.Pixels1To4At | src/luxcore/pyluxcoreforblender.cpp:250-264 | pixel q becomes its scaled value in three channels and an alpha of 1 |
| BlenderFilm.ConvertFilmChannelOutput_1xFloat_To_4xFloatList | src/luxcore/pyluxcoreforblender.cpp:231-265 | failure leaves the pass unchanged; otherwise the pass holds the 4-float pixels of the 1-float output |
| BlenderFilm.ConvertFilmChannelOutput_3xFloat_To_3xFloatList | src/luxcore/pyluxcoreforblender.cpp:267-293 | failure leaves the pass unchanged; otherwise the pass holds the output, scaled element by element, when normalising, by the factor of the maximum of its first width x height floats |
| BlenderFilm.Rgb3ScanAsWritten | src/luxcore/pyluxcoreforblender.cpp:278-292 | the same comparison of the whole-buffer factor and the factor as written for the in-place 3-float pass |
| BlenderFilm.Pixels3To4At | src/luxcore/pyluxcoreforblender.cpp:314-327 | pixel q becomes its three scaled colour values and an alpha of 1 |
| BlenderFilm.ConvertFilmChannelOutput_3xFloat_To_4xFloatList | src/luxcore/pyluxcoreforblender.cpp:295-328 | failure leaves the pass unchanged; otherwise the pass holds the 4-float pixels of the 3-float output, normalised by the factor of the maximum of its first width x height floats |
| BlenderFilm.Rgb4ScanAsWritten | src/luxcore/pyluxcoreforblender.cpp:309-327 | the same comparison for the colour channels of the 3-to-4 conversion |
| BlenderFilm.MaxFiniteSkippingIsMax | src/luxcore/pyluxcoreforblender.cpp:341-349 | the colour maximum is at least every finite value outside the skipped channel, and 0 or one of them |
| BlenderFilm.MaxSkippingIgnoresChannel | src/luxcore/pyluxcoreforblender.cpp:342-348 | the colour maximum does not depend on the skipped channel: alpha for the intended scan, red for the scan as written |
| BlenderFilm.MaxFiniteSkippingLeast | src/luxcore/pyluxcoreforblender.cpp:341-349 | no colour maximum exceeds an upper bound of 0 and the finite values outside the skipped channel |
| BlenderFilm.ColorScansAgree | src/luxcore/pyluxcoreforblender.cpp:343-348 | the maximum as written (red left out) equals the intended one (alpha left out) exactly when no red exceeds the first and no alpha exceeds the second |
| BlenderFilm.FindMaxColor | src/luxcore/pyluxcoreforblender.cpp:341-349 | the scan loop as written returns the maximum of the first n floats, leaving out those at multiples of 4 (the red channels) |
| BlenderFilm.NormalizedColorAtMostOne | src/luxcore/pyluxcoreforblender.cpp:341-362 | scaling by the intended colour maximum, with alpha left out, brings every finite colour channel to at most 1 |
| BlenderFilm.ScaleColorAt | src/luxcore/pyluxcoreforblender.cpp:352-362 | pixel q has its colour channels scaled and its alpha untouched |
| BlenderFilm.ConvertFilmChannelOutput_4xFloat_To_4xFloatList | src/luxcore/pyluxcoreforblender.cpp:330-364 | failure leaves the pass unchanged; otherwise the pass holds the output, its colour channels scaled, when normalising, by the factor of the maximum as written, which leaves out red and reads alpha |
| BlenderFilm.Rgba4ScanAsWritten | src/luxcore/pyluxcoreforblender.cpp:341-362 | a finite colour channel is at most 1 with the intended maximum; with the maximum as written it ends above 1 when it exceeds that maximum, and the two images agree when the two maxima do |
| BlenderFilm.UIntPixelsAt | src/luxcore/pyluxcoreforblender.cpp:386-394 | element i becomes the unsigned value, as a float, times k |
| BlenderFilm.ConvertFilmChannelOutput_1xUInt_To_1xFloatList | src/luxcore/pyluxcoreforblender.cpp:367-395 | failure leaves the pass unchanged; otherwise the pass holds the converted values, with k from the unsigned maximum when normalising |
| BlenderFilm.BufferCheck | src/luxcore/pyluxcoreforblender.cpp:400-426 | the byte conversion proceeds exactly when both objects give buffer views holding as many whole pixels; a source without the buffer protocol is reported first |
| BlenderFilm.BufferCheckExactSizes | src/luxcore/pyluxcoreforblender.cpp:422-426 | views of exactly n float pixels and n byte pixels pass the check |
| BlenderFilm.BufferCheckIgnoresRemainder | src/luxcore/pyluxcoreforblender.cpp:422 | the check compares whole pixels: views of n pixels pass whatever partial pixel either holds beyond them |
| BlenderFilm.QuantizeInRange | src/luxcore/pyluxcoreforblender.cpp:440-442 | an in-range scaled value is rounded to the nearest byte, halves going up |
| BlenderFilm.BgraRowAt | src/luxcore/pyluxcoreforblender.cpp:439-445 | pixel q of a row becomes blue, green, red (quantised) and 0xff |
| BlenderFilm.FlippedRow | src/luxcore/pyluxcoreforblender.cpp:435-446 | destination row y is source row h - 1 - y converted pixel by pixel |
| BlenderFilm.SourceRowPixel | src/luxcore/pyluxcoreforblender.cpp:436-445 | pixel x of a converted source row, stated on the source floats |
| BlenderFilm.FlippedImage | src/luxcore/pyluxcoreforblender.cpp:435-460 | the converted image has 4 bytes per pixel |
| BlenderFilm.ConvertFilmChannelOutput_3xFloat_To_4xUChar | src/luxcore/pyluxcoreforblender.cpp:398-464 | a failed check leaves the destination untouched; otherwise its first 4 w h bytes are the flipped BGRA image, scaled by 255 or by 255 / max, and the remaining bytes are unchanged |
| BlenderFilm.ShortScanLeavesValueAboveOne | src/luxcore/pyluxcoreforblender.cpp:208-209 | as written, a UV pixel (1, 4) keeps a v of 4 after normalisation |
| BlenderFilm.AlphaScanAsWrittenSkipsRed | src/luxcore/pyluxcoreforblender.cpp:343-348 | as written, the pixel (2, 0, 0, 0.5) gets a colour maximum of 0.5 and its red becomes 4 |
| BlenderMesh.Matching | src/luxcore/pyluxcoreforblender.cpp:498-503 | the loop triangles of the material in increasing order, each one selected by its polygon's `mat_nr` |
| BlenderMesh.MatchingExactly | src/luxcore/pyluxcoreforblender.cpp:498-503 | a loop triangle is listed exactly when its polygon has the material |
| BlenderMesh.NewVertex | src/luxcore/pyluxcoreforblender.cpp:546-570 | a new vertex at the next free index, with the Blender vertex's coordinates, the given normal, and the corner's UV and colour when Blender has them |
| BlenderMesh.AddSmoothCorner | src/luxcore/pyluxcoreforblender.cpp:509-571 | a smooth corner gets a correct vertex: the mapped vertex when its UV and colour agree, otherwise a new one that becomes the mapped one |
| BlenderMesh.AddFlatCorner | src/luxcore/pyluxcoreforblender.cpp:590-614 | a flat corner always gets a new vertex with the face normal, and the map is unchanged |
| BlenderMesh.AddCorner | src/luxcore/pyluxcoreforblender.cpp:507-614 | one corner gets a correct vertex; a flat corner adds exactly one new vertex and leaves the map unchanged, a smooth one adds at most one |
| BlenderMesh.AddCorners | src/luxcore/pyluxcoreforblender.cpp:505-617 | the triangle's three corners are correct vertices; a flat triangle adds exactly 3 vertices, a smooth one at most 3 |
| BlenderMesh.TrisExtend | src/luxcore/pyluxcoreforblender.cpp:486-617 | adding vertices keeps every triangle emitted so far correct |
| BlenderMesh.AddMatchingTriangle | src/luxcore/pyluxcoreforblender.cpp:505-617 | a loop triangle of the material adds its corners and appends its triangle, so the triangles still match the material's loop triangles one for one with correct corners |
| BlenderMesh.DefineBlenderMesh | src/luxcore/pyluxcoreforblender.cpp:470-657 | the result is None (false) exactly when no loop triangle has the material; otherwise a mesh with one triangle per matching loop triangle, in order, with correct corners, and per-vertex normals, UVs and colours, carrying the name and the transformation |
| BlenderMesh.FlatVerticesNotShared | src/luxcore/pyluxcoreforblender.cpp:573-614 | a flat-shaded triangle shares no vertex with any other triangle |
| BlenderMesh.ReadMatrix | src/luxcore/pyluxcoreforblender.cpp:681-687 | reading fails with the Python type error exactly when an item is not a number; otherwise the 16 list values fill the matrix column by column |
| BlenderMesh.MeshName | src/luxcore/pyluxcoreforblender.cpp:697 | the mesh name is the object name followed by digits that read back as the material index |
| BlenderMesh.MeshList | src/luxcore/pyluxcoreforblender.cpp:695-709 | the list holds material indices in increasing order, each named by MeshName and each producing a mesh |
| BlenderMesh.MeshEntry | src/luxcore/pyluxcoreforblender.cpp:695-709 | the entry for a material index is present exactly when that material produces a mesh, and it carries MeshName and the index |
| BlenderMesh.MeshListComplete | src/luxcore/pyluxcoreforblender.cpp:695-709 | every material below the count that produces a mesh is listed |
| BlenderMesh.DefineBlenderMesh1 | src/luxcore/pyluxcoreforblender.cpp:659-710 | a non-list transformation fails with the wrong data type error, a list without 16 values with the wrong number of elements error, and a 16-item list holding a non-number with the type error; otherwise the list of meshes defined, each the mesh of its `(short)` material index carrying the transformation read |
| BlenderMesh.DefineBlenderMesh2 | src/luxcore/pyluxcoreforblender.cpp:712-723 | without a transformation the call never fails, and every mesh it defines carries none |
| BlenderStrands.ParseTessellation | src/luxcore/pyluxcoreforblender.cpp:869-879 | a recognised name parses to the type it names; an unknown one is reported as unknown |
| BlenderStrands.CheckArray | src/luxcore/pyluxcoreforblender.cpp:794-802 | an argument is accepted exactly when it is a 1-dimensional float32 ndarray, giving its data; otherwise the not an ndarray, dtype or dimensions error |
| BlenderStrands.ValidateStrands | src/luxcore/pyluxcoreforblender.cpp:790-961 | pointsPerStrand 0 is refused first; validation succeeds exactly when every argument check holds, and then fixes pointsPerStrand, the vertex colour switch and the tessellation type, and never takes colours from both the image and the array |
| BlenderStrands.KeptSteps | src/luxcore/pyluxcoreforblender.cpp:990-1049 | the kept points of a strand are steps of that strand |
| BlenderStrands.KeptStepsOrdered | src/luxcore/pyluxcoreforblender.cpp:990-1049 | the kept steps are in increasing order, at most one per point |
| BlenderStrands.KeptStepsMembership | src/luxcore/pyluxcoreforblender.cpp:995-1049 | a point is kept exactly when it ends a valid segment (neither end the zero point, squared length at least epsilon), or is the root and the first segment is valid |
| BlenderStrands.PointPush | src/luxcore/pyluxcoreforblender.cpp:1046-1097 | a kept point adds 3 coordinates, plus a thickness, 3 colour channels and 2 UVs exactly when those arrays are used |
| BlenderStrands.Pushes | src/luxcore/pyluxcoreforblender.cpp:1007-1097 | k kept points add 3 k coordinates, plus k thicknesses, 3 k colours and 2 k UVs when used, and no segment |
| BlenderStrands.PopBack | src/luxcore/pyluxcoreforblender.cpp:1102-1103 | popping n values drops the last n |
| BlenderStrands.TakeBackPoint | src/luxcore/pyluxcoreforblender.cpp:1100-1116 | the rollback removes exactly the values the strand's one kept point added |
| BlenderStrands.ReadStrandAttrs | src/luxcore/pyluxcoreforblender.cpp:969-982 | the values read at the head of a strand are AttrsOf: the UV pair brought into 0..1 when UVs are read, and the vertex colour when vertex colours are used |
| BlenderStrands.WalkStep | src/luxcore/pyluxcoreforblender.cpp:990-1097 | one step appends exactly what that step pushes (nothing for a skipped segment, the root and the point on the first step, the point otherwise) and keeps the `u_short` count equal to the number of kept points modulo 2^16 |
| BlenderStrands.WalkStrand | src/luxcore/pyluxcoreforblender.cpp:985-1098 | the inner loop appends the pushes of the kept steps, and its `u_short` count is their number modulo 2^16 |
| BlenderStrands.FilterStrand | src/luxcore/pyluxcoreforblender.cpp:968-1119 | one strand appends exactly its output: rolled back if one point was kept, with a segment count of kept - 1 if more were |
| BlenderStrands.FinishStrand | src/luxcore/pyluxcoreforblender.cpp:1100-1119 | after the walk the buffers hold the strand's result: a lone kept point is taken back, more than one records the segment count |
| BlenderStrands.FilterStrands | src/luxcore/pyluxcoreforblender.cpp:933-1120 | the strand loop produces the filtered buffers of all strands |
| BlenderStrands.RollbackRestores | src/luxcore/pyluxcoreforblender.cpp:1100-1116 | a strand with one kept point leaves every buffer as it was before the strand |
| BlenderStrands.ResultSegments | src/luxcore/pyluxcoreforblender.cpp:1100-1119 | a strand with k kept points adds the segment count k - 1 and 3 k coordinates when k is above 1, and nothing when k is at most 1 |
| BlenderStrands.ResultLockstep | src/luxcore/pyluxcoreforblender.cpp:1046-1116 | a strand adds its coordinates, thicknesses, colours and UVs for the same number of points |
| BlenderStrands.FilteredLockstep | src/luxcore/pyluxcoreforblender.cpp:944-1120 | after any number of strands the points, thickness, colour and UV buffers describe the same points, with the one default thickness when thickness is not per point |
| BlenderStrands.SegmentPointsAppend | src/luxcore/pyluxcoreforblender.cpp:1118 | the points a segment list describes add up over concatenation |
| BlenderStrands.SegmentsCoverPoints | src/luxcore/pyluxcoreforblender.cpp:967-1120 | the filtered points are exactly those the segment counts describe: one more than each count, per strand |
| BlenderStrands.AdjacentFind | src/luxcore/pyluxcoreforblender.cpp:1133-1134 | the search returns the first index whose successor differs, every earlier element being equal to its successor, or the length when there is none |
| BlenderStrands.AdjacentFindAllEqual | src/luxcore/pyluxcoreforblender.cpp:1133-1134 | the search reaches the end exactly when all segment counts are equal |
| BlenderStrands.HairOf | src/luxcore/pyluxcoreforblender.cpp:1140-1191 | the header counts the strands and the points; there is a segments array exactly when the counts differ, and otherwise a default equal to every count; the thickness, colour and UV bits are set exactly when those arrays are used |
| BlenderStrands.DefineBlenderStrands | src/luxcore/pyluxcoreforblender.cpp:767-1199 | the call throws exactly when validation fails, with its error; otherwise it returns false when no strand has a valid segment, and defines the hair file of the filtered buffers with the tessellation type |

## Left out

- CheckSamplersForNoTile (bakecpu.cpp:93) is library code that is not part of this model, and so are ParseOptions and GetDefaultProps.
- InitFilm (bakecpu.cpp:75-80) is not part of the core.
- The serialization of render states is not modelled.
- Logging is not modelled: the SLG_LOG messages, the film device's name and the "Removed … invalid points" count.
- `CheckEngineTag` is modelled as a comparison of the state's tag with BAKECPU; its message is not modelled.
- Property reading keeps the documented defaults and the `Get<string>` and `Get<u_int>` conversions. The property parser is not part of this model.
- `LuxRays_DebugHandler` and the `LUXRAYS_DISABLE_OPENCL` build switch are not modelled: the model is the OpenCL build.
- Floating point rounding is not modelled: products, `1 / max`, `Lerp` and `powf` are exact reals or symbolic tokens.
- The `(u_char)` cast of an out-of-range value is undefined behaviour in C++. The model wraps it modulo 256; QuantizeInRange states the defined range.
- BlenderFilm.FlippedImage: its contract states only the length. The pixel contents are stated by FlippedRow and SourceRowPixel.
- `GetOutput` (the film pipeline) is not modelled: its output is a parameter.
- `PyBuffer_Release` and Python reference counting are not modelled.
- The Python class names in error messages are parameters.
- The image file of the strands is a parameter. Opening, reading and the gamma lookup of `getColorFromImage` are left out; the colour of such a point is the token for (u, v).
- `Scene::DefineMesh` and `Scene::DefineStrands` are the model's results, not calls into a scene.
- The cyHairFile bit values, the header's default transparency and the adaptive and solid tessellation parameters are passed through unmodelled.
- BlenderStrands.DefineBlenderStrands: when validation succeeds, its contract requires InBounds. The source does not check that the points array holds whole strands, nor that the colour and UV arrays hold one entry per strand when read, so out-of-range reads are undefined behaviour. The model does not cover those inputs; inputs that fail validation are not constrained.
- BlenderStrands.SegmentsCoverPoints: proved only for pointsPerStrand below 65536. With more points per strand the `u_short` counter can wrap, and the model computes that wrap.
- BlenderStrands.ResultSegments: likewise, proved only for fewer than 65536 kept points.
- `extract<float>` of a Python object that is not a number is not modelled for the strands' root and tip colours, which are reals. For the mesh transformation list it is modelled as the NotAFloat error.
- BlenderMesh.DefineBlenderMesh1: an object name containing `%` becomes part of the `boost::format` string, which then formats differently or throws. When there is a material to name, the model requires a name without `%`.
- BlenderMesh.DefineBlenderMesh2: likewise, a name without `%` is required when there is a material to name.
- BlenderFilm.ConvertFilmChannelOutput_3xFloat_To_4xUChar: views that pass the size check but hold fewer than width x height pixels make the C++ read and write past them, which is undefined behaviour. For that case only, the model requires that they hold them.
- BlenderFilm.ConvertFilmChannelOutput_4xFloat_To_4xFloatList: the `u_int` scan bound `width * height * 4` is unbounded here. In C++ it wraps modulo 2^32, so a 32768 x 32768 pass makes the bound 0 and the factor 0. Images of 2^32 floats or more are not modelled.
- BlenderFilm.ConvertFilmChannelOutput_UV_to_Blender_UV, and likewise the other conversions: the `u_int` products `width * height * depth`, for the buffer sizes, and `y * width * depth`, for the row offsets, are unbounded here. In C++ they wrap modulo 2^32 for images of 2^32 floats or more, which are not modelled.
- BlenderMesh.DefineBlenderMesh: the `u_int` vertex counter is unbounded, not wrapped at 2^32. `ApplyTransform` is kept as the matrix, and normals are symbolic.
- BlenderMesh.DefineBlenderMesh: the UV and colour comparison of smooth corners is modelled as value equality. UVs that are NaN compare equal here but not in C++.

Where the code and its design description disagree, the model follows the code:

- `GetRenderState` (bakecpu.cpp:82-84) does not move the cache into the render state. The state and the engine then refer to the same cache (CaptureAndResume).
- `StopLockLess` deletes the cache (bakecpu.cpp:163-164). A state captured after a stop therefore carries none (StopAndCapture), and one captured before it dangles (CaptureAndStop).
- `DeleteOCLContext` deletes the context but leaves `ctx` set to it.

## Findings

| source | as written | input that shows it | evidently intended | confidence | as-written member | corrected member |
|---|---|---|---|---|---|---|
| src/luxcore/pyluxcoreforblender.cpp:208 (also 279 and 310) | the UV, 3-float and 3-to-4 conversions normalise by the maximum of only the first width x height floats of a buffer with 2 or 3 floats per pixel | a 1 x 1 UV pass (1, 4) with normalize: v stays 4 | scan all width x height x depth floats so every normalised value is at most 1 | high; not executed | BlenderFilm.ConvertFilmChannelOutput_UV_to_Blender_UV with BlenderFilm.UvScanAsWritten, BlenderFilm.Rgb3ScanAsWritten, BlenderFilm.Rgb4ScanAsWritten and BlenderFilm.ShortScanLeavesValueAboveOne | BlenderFilm.FullScanFactor with BlenderFilm.NormalizedAtMostOne and BlenderFilm.ShortScanAgrees |
| src/luxcore/pyluxcoreforblender.cpp:347 | the 4-float scan leaves out `i % 4 == 0`, the red channel, though its comment says alpha | the pixel (2, 0, 0, 0.5) with normalize: maximum 0.5, red becomes 4 | leave out channel 3 (alpha) | high; not executed | BlenderFilm.ConvertFilmChannelOutput_4xFloat_To_4xFloatList with BlenderFilm.Rgba4ScanAsWritten and BlenderFilm.AlphaScanAsWrittenSkipsRed | BlenderFilm.NormalizedColorAtMostOne with BlenderFilm.ColorScansAgree |
