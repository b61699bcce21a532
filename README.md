# three-projected-material, modelled in Dafny

The model covers `ProjectedMaterial`, a three.js material that projects a texture
onto a mesh from the point of view of a camera. Calling `project(mesh)` takes a
snapshot of the camera's matrices and of the mesh's world matrix and stores it in
the material's uniforms. From then on the texture stays fixed to the mesh when the
mesh or the camera moves. The material stretches the texture so that it keeps the
image's proportions inside the camera's frame, either contained in it or covering
it (`cover`). The dimensions are recomputed when the camera, the texture, the scale
or the cover flag change, when the window is resized, and when an image that was
still loading arrives. An `InstancedMesh` keeps one saved world matrix per
instance, split into four per-instance rows `savedModelMatrix0..3`.
`allocateProjectionData` allocates those rows and `projectInstanceAt` writes one
instance.

The repository has three variants of the material, and each is modelled in its own
module:

- `BuildMaterial` is the published build. It has one texture, supports perspective
  and orthographic cameras, and works with arrays of materials.
- `LayeredMaterial` is the layered variant. It stacks several textures, one per
  layer, and each layer is projected separately. The uniform
  `projectedTexturesIndices` records the order in which the layers were projected.
- `EarlyMaterial` is the early variant. It captures the camera when the material is
  made. Its vertex shader is fixed by an `instanced` flag, and its `project` only
  saves the mesh matrix.

The shared utilities are modelled in these modules:

- `ThreeUtils` models `monkeyPatch`, which inserts GLSL into a built-in shader.
  It also models the readiness condition of `addLoadListener` and the texel decoders.
- `Text` models the JavaScript string operations that `monkeyPatch` uses: `split`,
  `join`, `replace` and the decimal numbers in attribute names.
- `ArrayUtils` models `range`.
- `Dimensions` models `getCameraRatio` and `computeScaledDimensions`.
- `LayerStack` models the reordering of `projectedTexturesIndices`.
- `Instancing` and `LayerInstancing` model the per-instance buffers.
- `Three` models the three.js objects the material touches: cameras, textures,
  images, geometries, buffer attributes and meshes.

Some objects are mutable three.js objects that are shared by reference: cameras,
textures, geometries, buffer attributes and the materials themselves. These are
Dafny classes. A buffer attribute's float array is an `array<real>`. The uniforms
are a datatype value that the material's methods replace. An exception thrown by
the source is an `Outcome` or a `Result` carrying the error. The state written
before the throw stays written, as it does in the source.

Events become methods that the caller invokes; nothing in the model runs by itself:

- window `resize` becomes `OnResize`;
- a load listener's polling tick becomes `PollLoad`;
- `dispose` unsubscribes the resize listener, modelled by the flag `resizeSubscribed`.

Several properties are proved:

- the monkey-patched shader has its header and `main` at fixed offsets around the
  original `void main() {`;
- `split` followed by `join` with the same separator gives back the input;
- the scale factors keep the image's aspect ratio, and contain and cover are dual;
- the projection order stays a stack of distinct layers after every projection;
- the per-instance attribute names of different layers never collide;
- every instance write changes exactly the four values of that instance in each row.

## Model

| member | source | states |
|---|---|---|
| `ArrayUtils.Range` | src/array-utils.js:3-5 | `range(n)` has length `n` and holds `k` at position `k` |
| `ArrayUtils.RangeIncreasing` | src/array-utils.js:3-5 | the entries of `range(n)` are strictly increasing |
| `ArrayUtils.RangeMembers` | src/array-utils.js:3-5 | `x` is in `range(n)` exactly when `0 <= x < n` |
| `Seqs.IndexOf` | build/ProjectedMaterial.module.js:383 | `indexOf` is -1 exactly when the item is absent; otherwise it is the first position holding it |
| `Seqs.RemoveAt` | examples/lib/ProjectedMaterial.module.js:561 | `splice(k, 1)` drops position `k` and shifts the later entries down by one |
| `Seqs.Shift` | examples/lib/ProjectedMaterial.module.js:563 | `shift()` leaves one entry fewer, and the old first entry followed by the result gives back the list; an empty list stays empty |
| `Text.IndexOf` | build/ProjectedMaterial.module.js:26 | finds the first occurrence, and gives -1 exactly when there is none |
| `Text.ReplaceAll` | build/ProjectedMaterial.module.js:26 | `split(find).join(rep)` leaves a string without `find` unchanged |
| `Text.SplitNotEmpty` | build/ProjectedMaterial.module.js:26 | `split` with a non-empty separator always yields at least one piece |
| `Text.SplitFound` | build/ProjectedMaterial.module.js:26 | `split` cuts at the first occurrence and continues after it |
| `Text.JoinSplit` | build/ProjectedMaterial.module.js:26 | `s.split(sep).join(sep) == s` for every separator, the empty one included |
| `Text.JoinChars` | build/ProjectedMaterial.module.js:26 | `s.split('').join('') == s`: the empty separator splits into characters |
| `Text.SplitPiecesFree` | build/ProjectedMaterial.module.js:26 | no piece of a split contains the separator |
| `Text.HeadFree` | build/ProjectedMaterial.module.js:26 | the text before the first occurrence does not contain the separator |
| `Text.ReplaceAllSteps` | build/ProjectedMaterial.module.js:26 | replacing all occurrences replaces the first one and then all occurrences in the rest |
| `Text.ReplaceAllUnique` | build/ProjectedMaterial.module.js:26 | with exactly one occurrence, replacing all is a single splice at that occurrence |
| `Text.TailFree` | build/ProjectedMaterial.module.js:26 | after the only occurrence, the rest of the string does not contain the pattern |
| `Text.SplitJoin` | build/ProjectedMaterial.module.js:36 | joining lines free of a one-character separator and splitting again gives back the lines |
| `Text.ReplaceFirst` | build/ProjectedMaterial.module.js:31 | `replace` with a string pattern leaves a string without the pattern unchanged |
| `Text.Split` | build/ProjectedMaterial.module.js:26 | `split('')` gives one piece per character; a separator that does not occur gives the string itself; otherwise there are at least two pieces and the first is the text before the first occurrence |
| `Text.Join` | build/ProjectedMaterial.module.js:36 | joining no parts gives the empty string; the result starts with the first part, followed by the separator when there are more parts |
| `Text.NatToString` | examples/lib/ProjectedMaterial.module.js:629-632 | the decimal form of a layer index is non-empty and made of digits |
| `Text.DigitRoundTrip` | examples/lib/ProjectedMaterial.module.js:629-632 | reading a written digit gives back the digit |
| `Text.ParseNatToString` | examples/lib/ProjectedMaterial.module.js:629-632 | parsing the decimal form of `n` gives back `n` |
| `Text.NatToStringInjective` | examples/lib/ProjectedMaterial.module.js:629-632 | different numbers have different decimal forms |
| `ThreeUtils.DefineLines` | build/ProjectedMaterial.module.js:36 | there is one `#define name value` line per define, in order |
| `ThreeUtils.MonkeyPatch` | build/ProjectedMaterial.module.js:17-41 | the loop over the replacements computes the patched shader: replacements in order, then the header and `main` inserted at the first `void main() {`, then the defines block in front |
| `ThreeUtils.ReplaceEachFirstKeyFirst` | build/ProjectedMaterial.module.js:28-30 | the first replacement is applied to the whole shader before the others |
| `ThreeUtils.ReplaceEachAbsent` | build/ProjectedMaterial.module.js:28-30 | keys that do not occur in the shader leave it unchanged |
| `ThreeUtils.ReplaceEachIdentity` | build/ProjectedMaterial.module.js:28-30 | replacements that map a key to itself leave the shader unchanged |
| `ThreeUtils.MainBlockSlices` | build/ProjectedMaterial.module.js:31-35 | the inserted block holds the header, then `void main() {`, then `main`, at fixed offsets |
| `ThreeUtils.BlockLayout` | build/ProjectedMaterial.module.js:31-35 | the same offsets hold after any prefix and before any suffix |
| `ThreeUtils.InsertAtMain` | src/three-utils.ts:4-33 | with a `void main() {` after the replacements, the result is the defines, the shader up to its first `void main() {`, the block, then the rest; and the header and `main` sit right around the kept marker |
| `ThreeUtils.NoMarker` | src/three-utils.js:1-26 | without a `void main() {`, the shader is only prefixed by the defines |
| `ThreeUtils.DefinesBlockEmpty` | dist/three-utils.js:2-20 | the defines block is empty exactly when there are no defines |
| `ThreeUtils.DefinesLines` | build/ProjectedMaterial.module.js:36 | splitting the defines block at newlines gives back one `#define` line per define |
| `ThreeUtils.EncodingComponents` | src/three-utils.ts:51-61 | sRGB decodes as `sRGBToLinear( value )`; every other encoding decodes as linear |
| `ThreeUtils.TexelDecoderLayout` | src/three-utils.ts:64-71 | the decoder carries the requested function name and the components' return expression at fixed places |
| `ThreeUtils.ReplaceEach` | build/ProjectedMaterial.module.js:28-30 | no replacements leave the shader as it is; a single one replaces every occurrence of its key |
| `ThreeUtils.DefinesBlock` | build/ProjectedMaterial.module.js:36 | no defines give an empty block; one define gives its `#define` line alone |
| `ThreeUtils.PatchedShader` | build/ProjectedMaterial.module.js:17-41 | the defines block follows the opening indentation, and the result ends with the closing indentation |
| `ThreeUtils.PatchedCases` | src/three-utils.ts:4-33 | after the replacements, a shader without `void main() {` is only wrapped; otherwise the block takes the place of its first `void main() {` |
| `ThreeUtils.NoDefinesPatch` | src/three-utils.js:1-26 | the same two cases with the default empty defines |
| `ThreeUtils.IsReady` | build/ProjectedMaterial.module.js:45 | a ready texture has an image whose video frame size is not pending; a plain image, whose video sizes are undefined, is ready at once |
| `ThreeUtils.TexelDecodingFunction` | src/three-utils.ts:64-71 | the decoder is named as requested and returns the encoding's conversion of `value` |
| `Dimensions.CameraRatio` | build/ProjectedMaterial.module.js:485-504 | a perspective camera gives its aspect; an orthographic one gives the width over the height of its frustum; any other camera type throws "not supported" |
| `Dimensions.ScaleFactors` | build/ProjectedMaterial.module.js:522-537 | past the width bound the width is `ratioCamera / (ratio * scale)` and the height is `1 / scale`; otherwise the width is `1 / scale` and the height is `ratio / (ratioCamera * scale)` |
| `Dimensions.ScaleFactorsProportional` | build/ProjectedMaterial.module.js:522-537 | both factors are positive and `width * ratio == height * ratioCamera`, so the image keeps its aspect ratio in the camera's frame |
| `Dimensions.ScaleFactorsBounds` | build/ProjectedMaterial.module.js:522-537 | one factor is `1 / scale`; contain makes both at least `1 / scale`, cover makes both at most `1 / scale` |
| `Dimensions.CoverContainDuality` | build/ProjectedMaterial.module.js:527-535 | the contain factors are the cover factors times the ratio of the two aspect ratios, which is at least 1 |
| `Dimensions.ScaleInverse` | build/ProjectedMaterial.module.js:529-534 | multiplying the texture scale by `c` divides both factors by `c` |
| `Dimensions.WideImageExample` | build/ProjectedMaterial.module.js:522-537 | a 2:1 image under a square camera gets (1, 2) when contained and (0.5, 1) when covering |
| `Dimensions.ScaledDimensions` | build/ProjectedMaterial.module.js:507-538 | no image, or a video of unknown size, gives (1, 1); otherwise the result is the scale factors of the source aspect ratio, and it fails exactly when the camera type is unsupported |
| `LayerStack.AllUnset` | examples/lib/ProjectedMaterial.module.js:237-239 | the initial projection order holds -1 for every layer |
| `LayerStack.Reorder` | examples/lib/ProjectedMaterial.module.js:558-566 | the projected layer moves to the top; if it was already in the stack it is removed from its old place, otherwise the bottom entry is dropped |
| `LayerStack.InitialStacked` | examples/lib/ProjectedMaterial.module.js:237-239 | the initial order is a valid stack |
| `LayerStack.ReorderStacked` | examples/lib/ProjectedMaterial.module.js:558-566 | projecting a layer keeps the order a stack: the same length, the -1 entries below the layers, and the layers distinct and in range |
| `LayerStack.ReorderMembers` | examples/lib/ProjectedMaterial.module.js:558-566 | after projecting layer `i`, the layers in the stack are the old ones plus `i` |
| `LayerStack.ReorderKeepsOthers` | examples/lib/ProjectedMaterial.module.js:560-566 | re-projecting a layer in the stack keeps the others in their relative order |
| `LayerStack.FullHoldsAll` | examples/lib/ProjectedMaterial.module.js:560-564 | a layer missing from a stack leaves a -1 at the bottom, so `shift` drops only an unset entry |
| `Instancing.RowNamesDistinct` | build/ProjectedMaterial.module.js:540-545 | the four row attributes have distinct names |
| `Instancing.Row` | build/ProjectedMaterial.module.js:419-422 | row `r` of a matrix is elements `4r` to `4r + 3` |
| `Instancing.RowValues` | src/ProjectedMaterial.js:230-257 | the four rows are elements 0-3, 4-7, 8-11 and 12-15 |
| `Instancing.Rows` | build/ProjectedMaterial.module.js:415-417 | the attributes stored under the four row names |
| `Instancing.AllocateRows` | build/ProjectedMaterial.module.js:540-545 | the four row attributes are new, zeroed and separate arrays of `4 * instancesCount` floats with item size 4; every other attribute is kept |
| `Instancing.AllocateProjectionData` | build/ProjectedMaterial.module.js:540-545 | `savedModelMatrix0..3` hold four new zeroed buffers; the other attributes are unchanged |
| `Instancing.WriteRow` | build/ProjectedMaterial.module.js:419 | `setXYZW` writes the matrix row at the instance's position of the row buffer |
| `Instancing.WriteRows` | build/ProjectedMaterial.module.js:419-422 | each of the four row buffers receives its matrix row at the instance's position |
| `Instancing.WriteAt` | build/ProjectedMaterial.module.js:419-422 | the rows found on the geometry are written with the instance's matrix |
| `Three.SetAt` | build/ProjectedMaterial.module.js:419 | a typed-array write changes that one position, and a write out of range is ignored |
| `Three.WriteXYZW` | build/ProjectedMaterial.module.js:419 | `setXYZW(index, ...)` changes exactly positions `index * itemSize` to `index * itemSize + 3` of the array |
| `Three.BufferAttribute.SetXYZW` | build/ProjectedMaterial.module.js:419 | the array after the write is `WriteXYZW` of the array before |
| `Three.BufferAttribute.Zeroed` | build/ProjectedMaterial.module.js:541 | `new InstancedBufferAttribute(new Float32Array(n), 4)` is a new zeroed array of length `n` |
| `Three.Geometry.SetAttribute` | build/ProjectedMaterial.module.js:541 | `setAttribute` binds the name and keeps the other attributes |
| `Three.SourceWidth` | build/ProjectedMaterial.module.js:518 | `naturalWidth`, else `videoWidth`, else `clientWidth`, taking the first that is a non-zero number |
| `Three.SourceHeight` | build/ProjectedMaterial.module.js:519 | the same choice among `naturalHeight`, `videoHeight` and `clientHeight` |
| `Three.Camera.Default` | build/ProjectedMaterial.module.js:138 | `new PerspectiveCamera()` is a camera with aspect 1 at the origin with identity world matrices; its projection matrix is left open |
| `LayerInstancing.AttrNameInjective` | examples/lib/ProjectedMaterial.module.js:629-632 | `savedModelMatrix{r}_{i}` determines its row `r` and its layer `i` |
| `LayerInstancing.LayerRowNames` | examples/lib/ProjectedMaterial.module.js:610 | the four attribute names of layer `i` |
| `LayerInstancing.LayerRowNaming` | examples/lib/ProjectedMaterial.module.js:629-632 | the four names of one layer are distinct |
| `LayerInstancing.LayerRowsApart` | examples/lib/ProjectedMaterial.module.js:629-632 | two different layers share no attribute name |
| `LayerInstancing.LayerRowNamesNaming` | examples/lib/ProjectedMaterial.module.js:629-632 | the layer naming scheme is a valid naming: distinct within and across layers |
| `LayerInstancing.NamesBelowMembers` | examples/lib/ProjectedMaterial.module.js:628 | the names allocated for the first `count` layers are exactly the rows of those layers |
| `LayerInstancing.LayerNamesMembers` | examples/lib/ProjectedMaterial.module.js:627-634 | the allocated names are exactly `savedModelMatrix{r}_{k}` for `r < 4` and `k < texturesCount` |
| `LayerInstancing.AllocateProjectionData` | examples/lib/ProjectedMaterial.module.js:627-634 | every layer below `texturesCount` gets four new zeroed row buffers under its names, no two buffers of any layers sharing an array; the attribute map is the old one extended by exactly those names |
| `LayerInstancing.AllocateLayers` | examples/lib/ProjectedMaterial.module.js:628-633 | the loop over `range(texturesCount)` allocates the layers in turn, keeping the invariant that layers `0..k-1` are in place |
| `LayerInstancing.AllocateLayer` | examples/lib/ProjectedMaterial.module.js:629-632 | one iteration places layer `k`'s four new buffers and keeps the earlier layers in place |
| `BuildMaterial.InitialUniforms` | build/ProjectedMaterial.module.js:192-234 | the new uniforms hold the texture, loaded exactly when it has an image, with no projection, a full background and the given dimensions and offset |
| `BuildMaterial.Snapshot` | build/ProjectedMaterial.module.js:467-483 | the camera's view and projection matrices, position and direction are taken and the texture marked projected; every other uniform is kept |
| `BuildMaterial.Opacity` | build/ProjectedMaterial.module.js:383-391 | the background is hidden exactly for a material in a list that is not the list's first; otherwise it is kept |
| `BuildMaterial.ProjectedMaterial.Init` | build/ProjectedMaterial.module.js:185-234 | the private fields and the initial uniforms are stored; a texture that is not ready gets a load listener |
| `BuildMaterial.ProjectedMaterial.New` | build/ProjectedMaterial.module.js:136-365 | missing arguments default to a new perspective camera and an empty texture, and a missing texture or camera beside a valid other argument always succeeds; a non-texture or non-camera throws; otherwise the dimensions are computed, and construction succeeds exactly when they do, failing with their error; the uniforms start with no projection and with the current dimensions |
| `BuildMaterial.ProjectedMaterial.SaveDimensions` | build/ProjectedMaterial.module.js:461-465 | the width and height uniforms take the dimensions of the current texture, camera, scale and cover, or the call throws and nothing changes |
| `BuildMaterial.ProjectedMaterial.SaveCameraMatrices` | build/ProjectedMaterial.module.js:467-483 | the view, projection, position and direction uniforms take the camera's values, and the texture is marked projected |
| `BuildMaterial.ProjectedMaterial.SetCamera` | build/ProjectedMaterial.module.js:75-83 | a non-camera throws and changes nothing; a camera is stored and the dimensions are recomputed for it |
| `BuildMaterial.ProjectedMaterial.SetTexture` | build/ProjectedMaterial.module.js:89-106 | a non-texture throws; a texture without an image is stored, marked not loaded and gets a listener; a texture with an image is stored, marked loaded and the dimensions are recomputed |
| `BuildMaterial.ProjectedMaterial.SetTextureScale` | build/ProjectedMaterial.module.js:112-116 | the scale is stored and the dimensions are recomputed with it |
| `BuildMaterial.ProjectedMaterial.SetTextureOffset` | build/ProjectedMaterial.module.js:122-124 | only the offset uniform changes |
| `BuildMaterial.ProjectedMaterial.SetCover` | build/ProjectedMaterial.module.js:130-134 | the flag is stored and the dimensions are recomputed with it |
| `BuildMaterial.ProjectedMaterial.ArrayRule` | build/ProjectedMaterial.module.js:382-392 | in a list of materials a non-transparent one throws; a material after the first in the list draws no background |
| `BuildMaterial.ProjectedMaterial.Project` | build/ProjectedMaterial.module.js:367-396 | requires that the materials are projected and that this one is among them, then saves the mesh matrix, applies the list rule and snapshots the camera; each failure throws the right error, and the mesh matrix is already written when the transparency check fails |
| `BuildMaterial.ProjectedMaterial.InstanceCheck` | build/ProjectedMaterial.module.js:403-417 | the four guards of `projectInstanceAt` in order: instanced mesh, projected material, this material, allocated rows |
| `BuildMaterial.ProjectedMaterial.FinishInstance` | build/ProjectedMaterial.module.js:424-441 | the list rule, then the camera snapshot when it is the first instance or a save is forced |
| `BuildMaterial.ProjectedMaterial.ProjectInstanceAt` | build/ProjectedMaterial.module.js:398-442 | a failed guard throws before anything is written; otherwise the four rows take the instance's matrix, then the list rule applies, then the camera is saved for instance 0 or when forced |
| `BuildMaterial.ProjectedMaterial.Copy` | build/ProjectedMaterial.module.js:444-452 | copies `transparent`, then the camera, texture, scale, offset and cover of the source through the setters; on success the dimensions are current for them and no projection state changes; on a throw, which only an unsupported camera causes, the source's camera is already stored and the scale, cover, offset and projection snapshot are the old ones |
| `BuildMaterial.ProjectedMaterial.CopySettings` | build/ProjectedMaterial.module.js:446-450 | the setter sequence of `copy`, with its result stated for any given settings; a throw leaves the given camera stored and the scale, cover, offset and projection snapshot unchanged |
| `BuildMaterial.ProjectedMaterial.Dispose` | build/ProjectedMaterial.module.js:454-457 | the resize listener is removed and nothing else changes |
| `BuildMaterial.ProjectedMaterial.OnResize` | build/ProjectedMaterial.module.js:173-180 | while subscribed, a resize copies the camera's projection matrix and recomputes the dimensions; after `dispose` it does nothing |
| `BuildMaterial.ProjectedMaterial.PollLoad` | build/ProjectedMaterial.module.js:43-55 | a tick of a waiting listener whose texture became ready removes the listener, marks the texture loaded and recomputes the dimensions; a tick while not ready changes nothing |
| `LayeredMaterial.EncodingComponents` | examples/lib/ProjectedMaterial.module.js:56-86 | every encoding decodes through one of the seven decoders; RGBM is used exactly for the two RGBM encodings |
| `LayeredMaterial.EncodingTablesAgree` | examples/lib/ProjectedMaterial.module.js:56-86 | the layered table agrees with the shorter table for linear, sRGB and unknown encodings, and differs for the others |
| `LayeredMaterial.EncodingNamesDistinct` | examples/lib/ProjectedMaterial.module.js:56-86 | different known encodings get different decoders |
| `LayeredMaterial.TexelDecodingAgrees` | examples/lib/ProjectedMaterial.module.js:88-96 | the layered decoder is the same template over the layered table |
| `LayeredMaterial.TexelDecodingFunction` | examples/lib/ProjectedMaterial.module.js:88-96 | the decoder is named as requested and returns the layered table's conversion of `value` |
| `LayeredMaterial.PerLayer` | examples/lib/ProjectedMaterial.module.js:178-194 | the per-layer scales and offsets: a single `texture` uses `[textureScale]` and `[textureOffset]`; otherwise an explicit `textureScales` or `textureOffsets` is kept, and a missing one repeats the single value once per texture |
| `LayeredMaterial.LayerDimensions` | examples/lib/ProjectedMaterial.module.js:507-531 | no image gives (1, 1); otherwise the result is the scale factors of the natural aspect ratio, failing only for an unsupported camera |
| `LayeredMaterial.LayerDimensionsAgree` | examples/lib/ProjectedMaterial.module.js:507-531 | for a loaded natural-size image the layered computation equals the published one |
| `LayeredMaterial.LayersDimensions` | examples/lib/ProjectedMaterial.module.js:476-478 | every layer's dimensions, or the first failure; it succeeds exactly when every layer does |
| `LayeredMaterial.LayersFailOnlyForCamera` | examples/lib/ProjectedMaterial.module.js:476-478 | the layers fail exactly when the camera is unsupported and at least one layer has an image |
| `LayeredMaterial.Images` | examples/lib/ProjectedMaterial.module.js:476 | the image of each layer's texture |
| `LayeredMaterial.Waiting` | examples/lib/ProjectedMaterial.module.js:465-472 | the listeners still waiting are exactly the layers whose texture has no image |
| `LayeredMaterial.InitialUniforms` | examples/lib/ProjectedMaterial.module.js:223-266 | one entry per texture in every list: loaded when it has an image, not projected, absent from the projection order |
| `LayeredMaterial.InitialOrdered` | examples/lib/ProjectedMaterial.module.js:234-239 | the initial uniforms satisfy the projection-order invariant |
| `LayeredMaterial.SnapshotLayer` | examples/lib/ProjectedMaterial.module.js:548-566 | layer `i`'s camera uniforms take the camera's values, the layer is marked projected and moved to the top of the order, and the other layers are untouched |
| `LayeredMaterial.SnapshotOrdered` | examples/lib/ProjectedMaterial.module.js:556-566 | a snapshot preserves the projection-order invariant |
| `LayeredMaterial.TextureList` | examples/lib/ProjectedMaterial.module.js:178-182 | a single `texture` becomes a one-element list; otherwise `textures` is used, and reading `length` of a missing list throws |
| `LayeredMaterial.Unwrap` | examples/lib/ProjectedMaterial.module.js:184 | the textures of a list that passed the validity guard |
| `LayeredMaterial.Widths` | examples/lib/ProjectedMaterial.module.js:219 | the widths of the per-layer dimensions |
| `LayeredMaterial.Heights` | examples/lib/ProjectedMaterial.module.js:220 | the heights of the per-layer dimensions |
| `LayeredMaterial.ProjectedMaterial.Init` | examples/lib/ProjectedMaterial.module.js:213-266 | the camera, the cover flag, the scales and the uniforms are stored, and the listeners share the scale list |
| `LayeredMaterial.ProjectedMaterial.New` | examples/lib/ProjectedMaterial.module.js:167-473 | the guards throw in order (missing list, empty or invalid textures, invalid camera); past the guards, construction succeeds exactly when every layer's dimensions do, failing with their error; the scales and offsets default per layer; a success holds the per-layer dimensions and initial uniforms, with a load listener for every layer without an image |
| `LayeredMaterial.ProjectedMaterial.Make` | examples/lib/ProjectedMaterial.module.js:200-472 | builds the material once the arguments are valid and the dimensions computed |
| `LayeredMaterial.ProjectedMaterial.SaveDimensions` | examples/lib/ProjectedMaterial.module.js:475-481 | every layer's dimensions are recomputed, or the call throws and nothing changes |
| `LayeredMaterial.ProjectedMaterial.SetTexture` | examples/lib/ProjectedMaterial.module.js:112-114 | layer 0's texture is replaced and nothing is recomputed |
| `LayeredMaterial.ProjectedMaterial.SetTextures` | examples/lib/ProjectedMaterial.module.js:120-122 | the texture list is replaced and nothing is recomputed |
| `LayeredMaterial.ProjectedMaterial.SetTextureScale` | examples/lib/ProjectedMaterial.module.js:128-131 | layer 0's scale is replaced in the stored list, which the listeners also see while they share it, and every layer is recomputed |
| `LayeredMaterial.ProjectedMaterial.SetTextureScales` | examples/lib/ProjectedMaterial.module.js:137-140 | the list is replaced, the listeners keep the old one, and every layer is recomputed |
| `LayeredMaterial.ProjectedMaterial.SetTextureOffset` | examples/lib/ProjectedMaterial.module.js:146-148 | layer 0's offset is replaced |
| `LayeredMaterial.ProjectedMaterial.SetTextureOffsetsAsWritten` | examples/lib/ProjectedMaterial.module.js:154-156 | the setter writes into a uniform that does not exist and throws |
| `LayeredMaterial.ProjectedMaterial.SetTextureOffsets` | examples/lib/ProjectedMaterial.module.js:154-156 | the intended setter: the offset list is replaced |
| `LayeredMaterial.ProjectedMaterial.SetCover` | examples/lib/ProjectedMaterial.module.js:162-165 | the flag is stored and every layer is recomputed |
| `LayeredMaterial.ProjectedMaterial.SaveCameraMatrices` | examples/lib/ProjectedMaterial.module.js:533-567 | layer `i` takes the camera snapshot and moves to the top of the projection order |
| `LayeredMaterial.ProjectedMaterial.OnResize` | examples/lib/ProjectedMaterial.module.js:458-461 | the camera's projection matrix is copied and every layer is recomputed |
| `LayeredMaterial.ProjectedMaterial.PollLoad` | examples/lib/ProjectedMaterial.module.js:465-472 | a listener whose texture has an image fires once: its layer is marked loaded and only that layer's dimensions are recomputed, with the constructor's cover and the listeners' scale list |
| `LayeredMaterial.Project` | examples/lib/ProjectedMaterial.module.js:569-589 | a non-projected material or an index past the layers throws; otherwise layer `i` saves the mesh matrix and takes the camera snapshot |
| `LayeredMaterial.InstanceCheck` | examples/lib/ProjectedMaterial.module.js:594-612 | passes exactly when the mesh is instanced, its material projected, the index in range, the geometry a buffer geometry and the layer's four rows allocated |
| `LayeredMaterial.ProjectInstanceAt` | examples/lib/ProjectedMaterial.module.js:590-626 | a failed guard throws before anything is written; otherwise layer `i`'s four rows take the instance's matrix, and the layer's camera is saved for instance 0 or when forced |
| `LayeredMaterial.ApplyInstance` | examples/lib/ProjectedMaterial.module.js:614-625 | the writes and the conditional camera save of a call whose guards passed |
| `EarlyMaterial.VertexHeader` | src/ProjectedMaterial.js:61-100 | the vertex header is free of `$`, so `replace` inserts it literally |
| `EarlyMaterial.VertexMain` | src/ProjectedMaterial.js:61-100 | the start of `main` is free of `$` |
| `EarlyMaterial.VertexShader` | src/ProjectedMaterial.js:61-100 | a built-in shader without `main` is only wrapped; otherwise the header and the start of `main` take the place of its first `void main() {` |
| `EarlyMaterial.FragmentShader` | src/ProjectedMaterial.js:102-146 | after the diffuse line is replaced, the same two cases with the fragment header |
| `EarlyMaterial.VertexShaderLayout` | src/ProjectedMaterial.js:61-100 | the `instanced` flag selects the opening of the header (four per-instance rows or the saved-matrix uniform); the header and the start of `main` sit right around the built-in `main` |
| `EarlyMaterial.FragmentSwapsDiffuse` | src/ProjectedMaterial.js:102-146 | the single diffuse line of the built-in fragment shader is replaced by the projection code |
| `EarlyMaterial.EarlyDimensions` | src/ProjectedMaterial.js:173-191 | the scale factors of the natural aspect ratio under the camera's aspect; reading the size of a missing image throws |
| `EarlyMaterial.EarlyDimensionsAgree` | src/ProjectedMaterial.js:173-191 | for a loaded image the early computation equals the layered one; without an image the early one throws where the layered one gives (1, 1) |
| `EarlyMaterial.ProjectedMaterial.Init` | src/ProjectedMaterial.js:43-168 | the camera, texture, settings, shaders and uniforms are stored |
| `EarlyMaterial.ProjectedMaterial.New` | src/ProjectedMaterial.js:5-169 | a non-texture, then a non-camera, throws; otherwise the camera's matrices are captured, the dimensions computed (a texture without an image throws a TypeError for any camera) and both shaders patched |
| `EarlyMaterial.ProjectedMaterial.OnResize` | src/ProjectedMaterial.js:154-165 | the camera's projection matrix is copied and the dimensions are recomputed |
| `EarlyMaterial.Project` | src/ProjectedMaterial.js:193-204 | a non-projected material throws; otherwise only the mesh matrix is saved |
| `EarlyMaterial.InstanceCheck` | src/ProjectedMaterial.js:207-228 | the four guards in order: instanced mesh, projected material, allocated rows, `instanced` flag |
| `EarlyMaterial.ProjectInstanceAt` | src/ProjectedMaterial.js:206-258 | a failed guard throws before anything is written; otherwise the four rows take the instance's matrix |
| `EarlyMaterial.AllocateProjectionData` | src/ProjectedMaterial.js:260-277 | `savedModelMatrix0..3` hold four new zeroed buffers; the other attributes are unchanged |

## Left out

- GLSL: the meaning of the shader code is not modelled. The shaders are strings,
  and only their assembly by `monkeyPatch` is proved. The early variant's snippets
  are parameters (`EarlyMaterial.Snippets`) instead of the source's literals. The
  `onBeforeCompile` shaders of the published and layered variants, including the
  layered variant's per-layer code generation, are not part of this model.
- Matrix and vector maths: `applyMatrix4` is not modelled. The camera's direction
  (`Three.Camera.direction`) is taken as given with its pose.
- `updateProjectionMatrix`, `updateMatrixWorld` and `updateWorldMatrix` are not
  modelled. The camera's and mesh's matrices are taken as already up to date.
- `super.copy` of `Material` is reduced to `transparent`. `super.dispose` is not modelled.
- Timers and window events: `setInterval` polling and the window `resize` listener
  are events that the caller triggers (`PollLoad`, `OnResize`).
- Three.Proper: a perspective camera must have a positive `aspect`. The source would
  also accept a negative aspect and compute negative scale factors from it, and
  `Three.CameraProjection` leaves that case out.
- LayeredMaterial.ProjectedMaterial: the camera is fixed at construction. In the
  source `camera` is a plain writable property. After a reassignment, the
  dimension and camera-matrix saves would read the new camera, while the resize and
  load listeners keep the old one. That split is not modelled.
- JavaScript numbers are unbounded reals. Float32 rounding in the typed arrays,
  NaN and Infinity are not modelled.
- Degenerate image sizes are excluded by the `Three.Image` type. In the source a
  missing size, or 0 by 0, gives a NaN ratio. A single zero side gives a ratio of 0
  (zero width) or Infinity (zero height). The factors are then one infinite factor
  under contain, or one zero factor under cover.
- The layered and early variants read only `naturalWidth` and `naturalHeight`.
  Their images are required to have a positive natural size (`NaturallySized`).
- EarlyMaterial.ProjectedMaterial.New: requires a perspective camera and a
  natural-size image when the texture, its image and the camera are all present.
  With an image, the source reads `camera.aspect` and yields NaN for other cameras.
  Without an image it throws a TypeError for any camera, and the model does too.
- EarlyMaterial.ProjectedMaterial.OnResize: requires the same perspective camera and
  natural-size image when the texture has an image.
- LayeredMaterial.ProjectedMaterial.New: requires that an explicit `textureScales`
  list has one entry per texture. A shorter list in the source leads to dimensions
  computed from `undefined`. A longer list is excluded too, although the source only
  reads its first entries. An explicit `textureOffsets` list is taken as given.
- LayeredMaterial.ProjectedMaterial.SetTextures: requires a list of the current
  length. A list of another length leaves the per-layer uniforms out of step in the
  source.
- LayeredMaterial.ProjectedMaterial.SetTextureScales: requires a list of the
  current length. The setter recomputes every layer's dimensions, so the per-layer
  uniforms keep one entry per texture. A shorter list makes the source compute NaN
  dimensions from `undefined`. A longer list is excluded too, although the source
  only reads its first entries.
- The `textureOffsets` getter of the layered variant reads the same missing uniform
  as the setter (see Findings). Getters are not modelled as members, because the
  fields are read directly.
- Object key order: the `defines` object and the replacement keys of `monkeyPatch`
  are given as sequences, in the order `Object.keys` would list them.
- `String.prototype.replace` replacement patterns (`$&`, `$1`, ...) are not
  modelled. The header and `main` are required to contain no `$` (`NoDollar`).
- `textureIndex` is a natural number. Negative indices, which the source would
  pass to `splice` and to array writes, are not modelled.
- Instancing.WriteRows: the per-row result is stated only when the four row
  buffers are distinct arrays (`Separate`), which `allocateProjectionData` always
  ensures. Aliased rows set up by hand are not described.
- Instancing.WriteAt: stated through `Written`, with the same `Separate` condition.
- LayerInstancing.AllocateProjectionData: its rows are described through the ghost
  list `made` of the created attributes and the `Progress` invariant.
- The `range(n).forEach` of the layered `allocateProjectionData` is a `while` loop
  over the layers.
- The lambert uniforms of the early variant and the `Color` object are not
  modelled. `color` is kept as the given integer.
- `console.warn` for an unsupported encoding is not modelled.
- The scale factors follow build/ProjectedMaterial.module.js:520-537: the camera
  is 1 wide and `1 / ratioCamera` high, and the width factor is
  `ratioCamera / (ratio * scale)` or `1 / scale`.
- Default arguments: the model's members take every argument explicitly. The
  source's defaults, such as `textureIndex = 0` of `project` and
  `projectInstanceAt` and `texturesCount = 1` of the layered
  `allocateProjectionData`, are the values a caller passes.

## Findings

| source | as written | input that shows it | evidently intended | confidence | as-written member | corrected member |
|---|---|---|---|---|---|---|
| examples/lib/ProjectedMaterial.module.js:154-156 | the `textureOffsets` setter assigns `this.uniforms.textureOffset.value`, but the layered material's uniform is named `textureOffsets` | `material.textureOffsets = [new Vector2()]` on any layered material throws a TypeError | replace `uniforms.textureOffsets.value` | high (not executed) | `LayeredMaterial.ProjectedMaterial.SetTextureOffsetsAsWritten` | `LayeredMaterial.ProjectedMaterial.SetTextureOffsets` |
