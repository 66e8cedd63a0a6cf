# Desk-scene viewer: verified model of the CPU-side renderer core

This project models the CPU-side logic of a small WebGL viewer that shows a
monitor, a desk, a keyboard and a mouse built from axis-aligned boxes. Five
parts are modelled:

- **Mesh building** (`initBuffers` in `renderer.js`). `quad` pushes one face
  into caller-owned arrays. `createCuboid` emits a box's six faces while it
  threads a running index offset. `addCuboidToScene` appends each box to the
  scene arrays and routes its indices into the textured or the non-textured
  draw list. Modules `Geometry` and `Scene` describe these values as pure
  functions; the argument lists of the fourteen `addCuboidToScene` calls
  are tabulated as `Scene.SceneBoxes`. Module `MeshBuilder` holds the imperative builders (classes
  `QuadBuffers` and `SceneBuilder`) and proves they compute those values.
- **Checkerboard texture** (`createCheckerboardTexture`). Module
  `Checkerboard` fills a 64 x 64 grid of `[c, c, c, 1]` pixels from the bit
  test `((i & 8) == 0) XOR ((j & 8) == 0)`. It then flattens the grid into a
  16384-byte RGBA buffer, using nested loops over arrays as the source does.
- **Renderer state** (module `Renderer`). The globals `translate`, `rotate`,
  `scale`, the four light vectors and `lightingEnabled` are the fields of
  class `RendererState`, together with the lighting uniforms that
  `updateLighting` uploads. Each setter is a method. The method is proved to
  perform a pure step on the abstract value `RenderState`, and lemmas state
  the properties of those steps.
- **Event handlers** (`main.js`, module `Controls`). The bodies of the
  slider, reflect, zoom, reset, lighting, light-slider, drag and wheel
  handlers are methods on the same `RendererState`. The drag handlers'
  `isDragging`/`lastMouseX`/`lastMouseY` form class `DragState`.
- **Index upload.** The three index lists are uploaded as `Uint16Array`s.
  This is modelled as reduction modulo 2^16, and the model proves that the
  fixed scene loses nothing in that upload.

Vertex coordinates, colours and light values are `real`s. Normals are the
unnormalised cross products (see "Left out").

Two facts about the code are worth stating. First, pixels (0,0) and (8,8)
of the checkerboard are both black. Both bit tests are true at (0,0) and
both are false at (8,8), so the XOR is false at both, and only tiles whose
row and column differ in parity are white (`Checkerboard.CornerTiles`,
`Checkerboard.WhiteIffTileParity`). Second, `quad` divides the normal by its
length without checking for zero; that step is left out (see below).

## Model

| member | source | states |
|---|---|---|
| `Geometry.PushQuad` | renderer.js:100-171 | one `quad` call: append the face's four corners, four copies of its normal `cross(b-a, c-b)` and of the colour, the unit-square texture corners (or eight zeros when untextured) and the indices `o, o+1, o+2, o, o+2, o+3` |
| `Geometry.CuboidFaces` | renderer.js:203-289 | the buffers after the first n of the six `quad` calls of `createCuboid`, face k numbered from `start + 4k` |
| `Geometry.Cuboid` | renderer.js:173-299 | the object `createCuboid` returns: its six faces front, back, right, left, top, bottom over corners v0..v7, and the offset `start + 24` |
| `Geometry.QuadShape` | renderer.js:134-170 | one face adds 12 numbers to each vec3 attribute, 8 texture coordinates and 6 indices, all in `[o, o+4)`; the texture coordinates are the unit-square corners when textured and eight zeros otherwise |
| `Geometry.PushQuadShape` | renderer.js:133-170 | one `quad` call grows the arrays by 12/12/12/8/6; if the earlier indices lie in `[lo, o)`, then all indices afterwards lie in `[lo, o+4)` |
| `Geometry.CuboidFacesShape` | renderer.js:203-289 | after the first n `quad` calls of `createCuboid`, the arrays hold 12n/12n/12n/8n/6n numbers and every index lies in `[start, start+4n)` |
| `Geometry.CuboidShape` | renderer.js:203-297 | `createCuboid` yields 24 vertices, normals and colours, 24 texture pairs and 36 indices, all in `[start, start+24)`, with `newIndexOffset = start + 24` |
| `Geometry.CuboidFaceNormals` | renderer.js:115-289 | the unnormalised normal `cross(b-a, c-b)` of each face, in emission order, is `(0,0,wh)`, `(0,0,-wh)`, `(dh,0,0)`, `(-dh,0,0)`, `(0,wd,0)`, `(0,-wd,0)` |
| `Geometry.CuboidNormalsPointOutward` | renderer.js:189-289 | for positive width, height and depth, every face normal has positive dot product with (face centre - box centre) |
| `MeshBuilder.QuadBuffers.constructor` | renderer.js:198-202 | the five per-cuboid arrays start empty |
| `MeshBuilder.QuadBuffers.Quad` | renderer.js:100-171 | `quad` appends exactly the face's corners, four copies of its normal and colour, its texture coordinates and the indices `[o, o+1, o+2, o, o+2, o+3]`, and returns `o + 4` |
| `MeshBuilder.CreateCuboid` | renderer.js:173-299 | the six `quad` calls over corners v0..v7 produce exactly the cuboid described by `Geometry.Cuboid` |
| `MeshBuilder.CuboidUnfolded` | renderer.js:203-297 | six `quad` steps over the faces front, back, right, left, top, bottom, at offsets start, start+4, ..., start+20, give exactly `Geometry.Cuboid`, ending at offset start+24 |
| `MeshBuilder.SceneBuilder.constructor` | renderer.js:301-308 | the scene arrays start empty with offset 0 |
| `MeshBuilder.SceneBuilder.AddCuboidToScene` | renderer.js:310-346 | appends the cuboid at the current offset, sends its indices to exactly the draw list `useTexture` selects, advances the offset, and keeps the mesh invariant |
| `MeshBuilder.SceneBuilder.InitBuffers` | renderer.js:301-423 | after clearing and adding the fourteen boxes, the arrays hold the fixed scene: well-formed, 336 vertices, 504 indices, 36 textured and 468 not |
| `MeshBuilder.SceneBuilder.AddSceneCuboids` | renderer.js:348-423 | the fourteen `addCuboidToScene` calls, in source order, build the scene of exactly those boxes |
| `MeshBuilder.SceneBuilder.AddMonitor` | renderer.js:348-366 | on the cleared arrays, the six monitor calls build the scene of the first six boxes |
| `MeshBuilder.SceneBuilder.AddDesk` | renderer.js:368-409 | after the monitor, the desk top and four legs extend it to the scene of the first eleven boxes |
| `MeshBuilder.SceneBuilder.AddKeyboardAndMouse` | renderer.js:411-423 | the keyboard, key and mouse calls complete the scene of all fourteen boxes |
| `MeshBuilder.SceneBuilder.AddBox` | renderer.js:310-346 | when the arrays hold the scene of the first k boxes, one `addCuboidToScene` call on box k makes them hold the scene of the first k+1 |
| `Scene.EmptyScene` | renderer.js:301-308 | the cleared scene arrays and offset 0 |
| `Scene.AddCuboid` | renderer.js:310-346 | one `addCuboidToScene` call: the cuboid built from the current offset is appended to every array, its indices go to the textured list when `useTexture` holds and to the other list otherwise, and the offset advances |
| `Scene.Append` | renderer.js:332-345 | appending a `createCuboid` result to the scene arrays and routing its indices by `useTexture` |
| `Scene.BuildScene` | renderer.js:301-346 | the scene after adding a list of boxes in order to the cleared arrays |
| `Scene.WellFormed` | renderer.js:301-346 | the mesh invariant: 3/3/3/2 numbers per vertex, every index below the offset, the two draw lists together hold exactly `allIndices`, and no index is in both |
| `Scene.SceneBox` | renderer.js:348-423 | the argument list of the k-th `addCuboidToScene` call, with the named constants of lines 370-374 and 414 |
| `Scene.SceneBoxes` | renderer.js:348-423 | the fourteen boxes in call order |
| `Scene.DrawListsBelowOffset` | renderer.js:336-345 | in a well-formed mesh, every index in either draw list is below `currentIndexOffset` |
| `Scene.AppendKeepsWellFormed` | renderer.js:332-345 | appending 24 fresh vertices whose 36 indices lie in the new block keeps attribute lengths, index bounds, the multiset partition and disjointness of the draw lists |
| `Scene.AddCuboidCounts` | renderer.js:320-345 | each `addCuboidToScene` adds 24 vertices and 36 indices, and those 36 go to exactly one draw list chosen by `useTexture` |
| `Scene.AddCuboidKeepsWellFormed` | renderer.js:310-346 | each `addCuboidToScene` preserves the mesh invariant |
| `Scene.BuildSceneWellFormed` | renderer.js:301-346 | for any list of boxes the mesh is well-formed and `currentIndexOffset` is 24 per box |
| `Scene.BuildSceneCounts` | renderer.js:301-346 | for any list of boxes there are 36 indices per box, 36 textured per textured box and 36 non-textured per other box |
| `Scene.SingleBoxScene` | renderer.js:310-346 | one untextured box gives 24 vertices and 36 indices, all of them non-textured |
| `Scene.SceneCountTextured` | renderer.js:350-423 | of the fourteen boxes of the fixed scene only the back casing is textured |
| `Scene.ToUint16` | renderer.js:447-467 | the `Uint16Array` upload keeps the length and every value is below 65536 |
| `Scene.Uint16Lossless` | renderer.js:447-467 | indices below 65536 survive the `Uint16Array` upload unchanged |
| `Scene.FourteenBoxScene` | renderer.js:350-467 | any 14-box scene with one textured box has 336 vertices, 504 indices (36 textured, 468 not), and all three index uploads are lossless |
| `Scene.FixedScene` | renderer.js:350-467 | the scene `initBuffers` builds has those counts, is well-formed, and its index uploads are lossless |
| `Checkerboard.IsWhite` | renderer.js:629 | pixel (i, j) is white when exactly one of the two bit tests holds |
| `Checkerboard.Pixel` | renderer.js:629-630 | the grid entry `[c, c, c, 1]` with c = 1 on white pixels and 0 on black ones |
| `Checkerboard.BitClear` | renderer.js:629 | `(i & 8) == 0` holds exactly when `i / 8` is even |
| `Checkerboard.Texel` | renderer.js:638 | byte `k` of pixel (i, j) is 255 for alpha; a colour byte is 255 iff the pixel is white and 0 iff it is black |
| `Checkerboard.FillPixelGrid` | renderer.js:627-631 | the pixel loops set every grid entry (i, j) to `[c, c, c, 1]` with `c` the XOR of the two bit tests |
| `Checkerboard.CreateCheckerboardTexture` | renderer.js:615-638 | the buffer has 4*64*64 bytes, and byte `4*64*i + 4*j + k` is the texel of pixel (i, j) and channel k |
| `Checkerboard.FlattenGrid` | renderer.js:634-638 | from the grid of `[c, c, c, 1]` pixels, the conversion loops write byte `4*64*i + 4*j + k` as the texel of pixel (i, j) and channel k, for every pixel and channel |
| `Checkerboard.FlattenRow` | renderer.js:636-638 | one pass of the `i` loop writes every texel of row i and leaves the bytes of earlier rows unchanged |
| `Checkerboard.OffsetSplit` | renderer.js:634-638 | each byte offset below 16384 splits as `4*64*i + 4*j + k` with i, j in range and k < 4, and that split is the only one |
| `Checkerboard.WhiteIffTileParity` | renderer.js:629-630 | a pixel is white iff its 8-pixel tile row and tile column differ in parity |
| `Checkerboard.CornerTiles` | renderer.js:627-638 | pixel (0,0) is black, (0,8) is white and (8,8) is black |
| `Checkerboard.Period16` | renderer.js:627-631 | the pattern repeats every 16 pixels along each axis |
| `Checkerboard.Shift8Flips` | renderer.js:627-631 | moving 8 pixels along either axis flips the colour |
| `Renderer.Product` | renderer.js:545-564 | a light x material product has four components |
| `Renderer.LightingUniforms` | renderer.js:543-573 | the uniforms `updateLighting` derives from the state: the three products, the light position, shininess 100 and the flag as 1/0 |
| `Renderer.Zoomed` | renderer.js:532-534 | `setCamera`: `translate[2]` grows by `zoom` |
| `Renderer.Reset` | renderer.js:536-540 | `resetView`: the initial pose, the light untouched |
| `Renderer.Toggled` | renderer.js:608-612 | `toggleLighting`: the flag negated |
| `Renderer.LightPositionSet` | renderer.js:576-581 | components 0-2 of the light position replaced |
| `Renderer.AmbientSet` | renderer.js:584-589 | components 0-2 of the ambient colour replaced |
| `Renderer.DiffuseSet` | renderer.js:592-597 | components 0-2 of the diffuse colour replaced |
| `Renderer.SpecularSet` | renderer.js:600-605 | components 0-2 of the specular colour replaced |
| `Renderer.RendererState.Synced` | renderer.js:543-573 | the uploaded uniforms are `LightingUniforms` of the current state |
| `Renderer.RendererState.constructor` | renderer.js:13-30 | the globals at script load: pose `(0,-0.8,-8)`, `(0,0,0)`, `(1,1,1)`, the initial light, lighting on |
| `Renderer.RendererState.SetCamera` | renderer.js:532-534 | `translate[2] += zoom`; nothing else changes, so uniforms in step with the state stay in step |
| `Renderer.RendererState.ResetView` | renderer.js:536-540 | the pose becomes the initial pose; light state and uniforms are untouched, so uniforms in step with the state stay in step |
| `Renderer.RendererState.UpdateLighting` | renderer.js:543-573 | the uploaded uniforms become the component-wise light x material products with alpha 1, the light position, the shininess and the enabled flag as 1/0 |
| `Renderer.RendererState.SetLightPosition` | renderer.js:576-581 | components 0-2 of the light position are set, then the uniforms are refreshed |
| `Renderer.RendererState.SetAmbientLight` | renderer.js:584-589 | components 0-2 of the ambient colour are set, then the uniforms are refreshed |
| `Renderer.RendererState.SetDiffuseLight` | renderer.js:592-597 | components 0-2 of the diffuse colour are set, then the uniforms are refreshed |
| `Renderer.RendererState.SetSpecularLight` | renderer.js:600-605 | components 0-2 of the specular colour are set, then the uniforms are refreshed |
| `Renderer.RendererState.ToggleLighting` | renderer.js:608-612 | flips the flag, refreshes the uniforms and returns the new value |
| `Renderer.InitialValid` | renderer.js:13-30 | the initial state has 3-component pose vectors, `lightPosition[3] = 0` and colour alphas 1 |
| `Renderer.StepsKeepValid` | renderer.js:532-612 | every setter keeps those shapes, the directional light and the opaque colours |
| `Renderer.WithXYZReadBack` | renderer.js:577-579 | overwriting components 0-2 of a 4-vector yields `[a, b, c, v[3]]` |
| `Renderer.ZoomRoundTrip` | renderer.js:532-534 | `setCamera(z)` followed by `setCamera(-z)` restores the state |
| `Renderer.ZoomOnlyMovesDepth` | renderer.js:532-534 | `setCamera` changes only `translate[2]`, by exactly `zoom` |
| `Renderer.ResetRestoresInitialPose` | renderer.js:536-540 | reset yields the pose of lines 13-15, changes nothing else, and is idempotent |
| `Renderer.ToggleTwice` | renderer.js:608-612 | one toggle negates the flag; two toggles restore the whole state |
| `Renderer.WhiteMaterialPassesLight` | renderer.js:543-573 | with the all-ones material each product equals the light colour, and the enabled uniform is 1 iff lighting is on |
| `Renderer.LightSettersTouchOneVector` | renderer.js:576-605 | each light setter replaces only its own vector, by `[a, b, c, 0]` for the position and `[a, b, c, 1]` for the colours |
| `Renderer.ToggleLightingTwice` | renderer.js:608-612 | two toggles return the negated and then the original flag, restore the state, and leave the uniforms those of that state; when they were in step before, they are back to their old values |
| `Controls.TranslateSet` | main.js:20-25 | a translate slider: `translate[axis]` becomes v |
| `Controls.RotateSet` | main.js:28-33 | a rotate slider: `rotate[axis]` becomes degrees times pi/180 |
| `Controls.UniformScaleSet` | main.js:36-38 | the uniform slider: `scale` becomes `[v, v, v]` |
| `Controls.ScaleSet` | main.js:43-45 | a per-axis scale slider: `scale[axis]` becomes v |
| `Controls.Reflected` | main.js:48-50 | a reflect button: `scale[axis]` times -1 |
| `Controls.Dragged` | main.js:177-182 | one drag step: yaw grows by `dx*0.01`, pitch by `dy*0.01` |
| `Controls.DragPath` | main.js:174-190 | a whole drag: one `Dragged` step per `onmousemove`, each measured from the previous position |
| `Controls.LightSliderStep` | main.js:76-149 | a light slider: the matching setter with the new value on its channel and the current values elsewhere |
| `Controls.ScaleFactor` | main.js:195 | 1.1 for wheel up (`deltaY < 0`), 0.9 otherwise |
| `Controls.WheelScale` | main.js:195-202 | one wheel event: the slider value times the factor, clamped to the slider bounds |
| `Controls.WheelRepeat` | main.js:192-207 | n wheel events in the same direction |
| `Controls.TranslateInput` | main.js:20-25 | a translate slider sets `translate[axis]` and nothing else |
| `Controls.RotateInput` | main.js:28-33 | a rotate slider sets `rotate[axis]` to the degrees in radians |
| `Controls.UniformScaleInput` | main.js:36-38 | the uniform slider sets `scale` to `[v, v, v]` |
| `Controls.ScaleInput` | main.js:43-45 | a per-axis scale slider sets `scale[axis]` |
| `Controls.ReflectClick` | main.js:48-50 | a reflect button negates `scale[axis]` |
| `Controls.ZoomInClick` | main.js:53 | zoom in is `setCamera(+0.5)` |
| `Controls.ZoomOutClick` | main.js:54 | zoom out is `setCamera(-0.5)` |
| `Controls.ZoomInThenOut` | main.js:53-54 | zoom in then zoom out restores the whole state and the uniforms |
| `Controls.ResetClick` | main.js:57-58 | the reset button performs `resetView` |
| `Controls.ToggleLightingClick` | main.js:70-73 | toggles lighting and labels the button by the new state |
| `Controls.LightSliderInput` | main.js:76-149 | a light slider calls its setter with the new value on its channel and the current values elsewhere |
| `Controls.DragState.constructor` | main.js:161-163 | not dragging, last position (0, 0) |
| `Controls.DragState.MouseDown` | main.js:165-169 | starts dragging from the pressed position |
| `Controls.DragState.MouseUp` | main.js:171-172 | stops dragging and keeps the last position |
| `Controls.DragState.MouseMove` | main.js:174-190 | while dragging, turns by 0.01 rad per pixel moved and records the position; otherwise changes nothing |
| `Controls.Clamp` | main.js:199-202 | `max(lo, min(hi, x))` lies in `[lo, hi]` when `lo <= hi`, is `x` when `x` already lies there, and is `lo` when `lo > hi` |
| `Controls.WheelInput` | main.js:192-207 | the new uniform scale is the slider value times 1.1 (`deltaY < 0`) or 0.9, clamped to `[min, max]`, and is applied as `[v, v, v]` |
| `Controls.TranslateOnlyAxis` | main.js:20-25 | a translate slider changes one component and nothing else |
| `Controls.ScaleOnlyAxis` | main.js:43-45 | a per-axis scale slider changes one component and nothing else |
| `Controls.RotateOnlyAxis` | main.js:28-33 | a rotate slider changes one angle; 180 degrees gives pi |
| `Controls.UniformScaleEqual` | main.js:36-38 | after the uniform slider all three scale factors equal `v` and nothing else changed |
| `Controls.ReflectTwice` | main.js:48-50 | reflecting negates only `scale[axis]`; reflecting twice restores the state |
| `Controls.LightSliderOnlyChannel` | main.js:76-149 | a light slider changes one channel of its own vector; the other vectors, the pose and the flag are unchanged |
| `Controls.DraggedAdds` | main.js:181-182 | two drag steps equal one step over the summed distance |
| `Controls.DragPathTelescopes` | main.js:174-190 | a whole drag turns by the distance from its start to its last position |
| `Controls.DragOnlyTurns` | main.js:181-182 | a drag step adds `dy*0.01` to pitch and `dx*0.01` to yaw; roll and everything else is unchanged |
| `Controls.WheelUpStep` | main.js:195-202 | one wheel-up step stays in `[lo, hi]` and either reaches `hi` or grows by at least `lo/10` |
| `Controls.WheelUpProgress` | main.js:195-202 | after n wheel-up steps the scale is `hi` or at least `v + n*lo/10` |
| `Controls.WheelUpStaysAtMax` | main.js:195-202 | wheel-up at the maximum stays at the maximum |
| `Controls.WheelUpReachesMax` | main.js:195-202 | enough wheel-up steps reach the maximum |
| `Controls.WheelDownStep` | main.js:195-202 | one wheel-down step stays in `[lo, hi]` and either reaches `lo` or shrinks by at least `lo/10` |
| `Controls.WheelDownProgress` | main.js:195-202 | after n wheel-down steps the scale is `lo` or at most `v - n*lo/10` |
| `Controls.WheelDownReachesMin` | main.js:195-202 | enough wheel-down steps reach the minimum |

## Left out

- Normal normalisation (renderer.js:126-131): it uses `Math.sqrt` in floating point. The model keeps the unnormalised cross product, whose direction is what the outward-normal lemmas state. In the source, a zero-size box would divide by zero and give NaN normals.
- Floating-point rounding everywhere: coordinates, colours, products, the 0.01 drag factor, the 1.1/0.9 wheel factors and `Math.PI` are exact reals, and `Math.PI` is a decimal constant. The `Float32Array` uploads of the vertex attributes are not modelled.
- WebGL plumbing: context creation, shader compilation and linking, uniform and attribute lookups, buffer and texture creation and upload, the draw calls and the `requestAnimationFrame` loop (renderer.js:32-90, 425-530, 641-656). The uniform uploads of `updateLighting` are kept as fields of `RendererState`.
- The model-view and projection matrices built with the gl-matrix library (renderer.js:493-506): that library is not part of this model, and the work is trigonometric.
- shaders.js: GLSL run on the GPU.
- DOM work in main.js: element lookup, `parseFloat` of slider strings (slider values are parameters), label text and `toFixed`, the visual slider reset loop (main.js:60-66), the `% 360` slider display after dragging (main.js:185-186), and the slider updates of the uniform-scale handler (main.js:39-41).
- Controls.WheelInput: the slider's value, `min` and `max` are parameters. A browser range input also snaps an assigned value to its `step`, and that is not modelled. The handler's dispatch of an `input` event is modelled as a direct call of the uniform-scale step.
- Controls.WheelUpProgress, Controls.WheelUpReachesMax: they assume the slider minimum is positive, because they bound the growth linearly by `lo/10` per step. A slider with minimum 0 and a positive value also reaches its maximum, since the growth is geometric, but no lemma states that case.
- The initial upload of the lighting uniforms by `initRenderer` (renderer.js:76) is WebGL set-up and is not modelled. Before it, the uniform fields of `Renderer.RendererState` are empty, and `Synced` holds only from the first `updateLighting` on.
- `toggleScreenTexture` and `toggleBackCheckerboard` (main.js:153, 157): they are called but not defined in any file of the repository that this model covers.
- The unused `numRows`/`numCols` and the `Float32Array` pre-allocation of the grid (renderer.js:618-625), which the pixel loop overwrites.
