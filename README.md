# Per-frame host protocol of a WebGPU deferred renderer

This project models the host-side core of a WebGPU deferred renderer (a Sponza demo). The core is:

- the scene-graph transform node, with its dirty flag, cached local and world matrices, parent link and ordered children;
- the camera's per-frame protocol: the jitter switch and its changed flag, the 16-sample sub-pixel table rescaled on resize, the frame counter, the previous-frame projection-view copy, one uniform upload per frame, the matrix cascade and the frustum-corner enumeration;
- four render passes: the point-light pass, the directional plus ambient pass, the TAA resolve pass and the transparent pass. The model covers their lazily created input views, their bind groups and memoised descriptors, and the exact sequence of encoder calls they record;
- the mapping from a glTF mesh primitive to vertex slots, placeholders and an index range;
- the `clamp` helper.

The GPU is modelled as a `Device` object. It hands out fresh handles in increasing order and appends every call made on the device, its queue and the encoders to a log (`Gpu.Device.log`). Each pass method is proved to append exactly a sequence given by a specification function of the inputs and the old state. Lemmas then state what those sequences mean, by replaying them through an encoder-state machine (`Encoders.Replay`, `Encoders.Draws`). For example, every point-light draw sees the pipeline of its own classification, and every frame's directional pass draws once with both bind groups bound.

The camera's jitter bookkeeping is specified by a small state machine (`Cameras.Step`, `Cameras.Run`). The camera methods are proved to move the camera exactly as `Step` does. The frame-to-frame properties are lemmas about `Run`.

Matrices are symbolic (`Linear.Mat`): a product, an inverse or a look-at is a term, not a number. Equalities of matrices in the contracts are therefore equalities of the terms the source builds. Only scaling, translation and a zero Euler rotation are given an action on points (`Linear.Apply`), which is enough to show where the transform's local matrix sends a point.

Numbers are reals; integer handles are `nat`.

## Model

| member | source | states |
|---|---|---|
| MathUtils.Clamp | src/utils/math.ts:3-4 | with ordered bounds the result lies between them; inside it is the input, below it is `min`, above it is `max`; with `max < min` the result is `max` (outer `Math.min` wins) |
| MathUtils.ClampIdempotent | src/utils/math.ts:3-4 | clamping a clamped value again changes nothing, whatever the bounds |
| MathUtils.ClampPicksAnArgument | src/utils/math.ts:3-4 | the result is always one of the three arguments |
| MathUtils.ClampMonotone | src/utils/math.ts:3-4 | clamping preserves the order of two inputs |
| Transforms.Transform.constructor | src/core/Transform.ts:5-24 | a new node sits at the origin with unit scale, identity matrices, label "Object", visible, dirty, no parent and no children |
| Transforms.Transform.UpdateWorldMatrix | src/core/Transform.ts:30-57 | returns whether the node was dirty and clears the flag. A clean node keeps its local and world matrices and writes local · world into its parent's world matrix, leaving the shared identity matrix alone, or into the shared identity matrix for a root. A dirty node multiplies scaling and translation onto the previous scale and translate matrices, sets local = scale · rotation · translate and world = parent world (or the shared identity's current value) · local, and writes nothing else |
| Transforms.Transform.UpdateWorldMatrixIntended | src/core/Transform.ts:30-57 | corrected update: when dirty, the local matrix is translate · rotation · scale of the current components alone, so it does not depend on earlier updates; either way world = parent world (or the identity) · local, and nothing else is written |
| MathUtils.SharedIdentityMatrix.constructor | src/utils/math.ts:10 | the shared matrix starts as the identity |
| Transforms.WrittenUnitLocalShifts | src/core/Transform.ts:37-50 | the local matrix a first dirty update builds from unit scale, no rotation and position `p` shifts every point by `p` |
| Transforms.CorruptedIdentityImage | src/core/Transform.ts:30-57 | the shared identity after a root's clean update, composed with a new root's local matrix at the origin, sends the origin to `2p` |
| Transforms.UpdateShiftedRootTwice | src/core/Transform.ts:30-57 | a root at `p` updated twice, the second time clean, leaves local · (old identity value · local) in the shared identity matrix |
| Transforms.NewRootWorld | src/core/Transform.ts:30-57 | a new root's first update reads the shared identity's current value as its parent world and does not change it |
| Transforms.ChildCleanUpdateKeepsIdentity | src/core/Transform.ts:30-35 | a child updated twice, the second time clean, reports no change and leaves the shared identity matrix the identity |
| Transforms.CleanUpdateCorruptsIdentity | src/core/Transform.ts:30-35 | a root at (5,0,0) updated twice, then a new root at the origin updated once: the new root's origin lands at (10,0,0) |
| Transforms.IntendedCleanUpdateKeepsIdentity | src/core/Transform.ts:30-35 | with the corrected update the same sequence leaves the new root's origin at (0,0,0) |
| Transforms.IntendedLocalMatrixPlacesPoint | src/core/Transform.ts:37-50 | the corrected local matrix with no rotation scales a point first and then translates it |
| Transforms.FirstUpdateOfNewNode | src/core/Transform.ts:17-57 | a new node is dirty, so its first update reports a change and yields the identity-parent world matrix built from unit scale and the origin |
| Transforms.CleanUpdateKeepsLocal | src/core/Transform.ts:32-35 | a second update with nothing set in between reports no change and keeps the local matrix |
| Transforms.CompoundedTranslationImage | src/core/Transform.ts:38-46 | two compounded translations by `p` send the origin to `2p` |
| Transforms.RepeatedUpdateCompounds | src/core/Transform.ts:38-46 | setting position (5,0,0) twice with an update after each puts the origin at (10,0,0), not (5,0,0) |
| Transforms.IntendedRepeatedUpdate | src/core/Transform.ts:37-50 | the corrected update puts the origin at (5,0,0) in the same scenario |
| Transforms.WrittenOrderImage | src/core/Transform.ts:48-50 | scale · rotation · translate translates a point first and scales it afterwards |
| Transforms.WrittenLocalOrder | src/core/Transform.ts:48-50 | scale (2,1,1) and position (5,0,0) send (1,0,0) to (12,0,0) through the local matrix as written |
| Transforms.IntendedLocalOrder | src/core/Transform.ts:48-50 | the corrected local matrix sends (1,0,0) to (7,0,0) in the same scenario |
| Transforms.Transform.AddChild | src/core/Transform.ts:59-62 | the child's parent becomes this node and the child is appended to the children list |
| Transforms.Transform.RemoveChild | src/core/Transform.ts:64-67 | the children become the old list without every node of the child's id; the child is detached whether or not it was a child |
| Transforms.WithoutId | src/core/Transform.ts:65 | the filtered list holds exactly the old children whose id differs, and is no longer than the old list |
| Transforms.WithoutIdAppend | src/core/Transform.ts:65 | filtering distributes over concatenation, so survivors keep their relative order |
| Transforms.WithoutIdKeepsOthers | src/core/Transform.ts:65 | removing an id no child has leaves the list unchanged |
| Transforms.Transform.Traverse | src/core/Transform.ts:69-76 | the visited nodes start with this node and their ids are the pre-order visit of the hierarchy (the node alone when not recursive) |
| Transforms.VisitCoversSubtree | src/core/Transform.ts:69-76 | a recursive traversal visits every node of the subtree and nothing else |
| Transforms.VisitAllCovers | src/core/Transform.ts:72-74 | traversing a list of children visits exactly the members of those subtrees |
| Transforms.Transform.Render | src/core/Transform.ts:90-97 | a hidden node runs no hook; a visible one runs pre, on and post render once each, in that order |
| Transforms.Transform.SetPosition | src/core/Transform.ts:106-112 | the position becomes (x,y,z) and the node is dirty |
| Transforms.Transform.SetPositionX | src/core/Transform.ts:114-118 | only the x component changes, and the node is dirty |
| Transforms.Transform.SetPositionY | src/core/Transform.ts:120-124 | only the y component changes, and the node is dirty |
| Transforms.Transform.SetPositionZ | src/core/Transform.ts:126-130 | only the z component changes, and the node is dirty |
| Transforms.Transform.SetRotation | src/core/Transform.ts:152-158 | the rotation becomes (x,y,z) and the node is dirty |
| Transforms.Transform.SetRotationX | src/core/Transform.ts:160-164 | only the x rotation changes, and the node is dirty |
| Transforms.Transform.SetRotationY | src/core/Transform.ts:166-170 | only the y rotation changes, and the node is dirty |
| Transforms.Transform.SetRotationZ | src/core/Transform.ts:172-176 | only the z rotation changes, and the node is dirty |
| Transforms.Transform.SetScale | src/core/Transform.ts:198-204 | the scale becomes (x,y,z) and the node is dirty |
| Transforms.Transform.SetScaleX | src/core/Transform.ts:206-210 | only the x scale changes, and the node is dirty |
| Transforms.Transform.SetScaleY | src/core/Transform.ts:212-216 | only the y scale changes, and the node is dirty |
| Transforms.Transform.SetScaleZ | src/core/Transform.ts:218-222 | only the z scale changes, and the node is dirty |
| Cameras.HaltonTableInUnitSquare | src/renderer/camera/Camera.ts:10-27 | the sample table has 16 entries, each strictly inside the unit square |
| Cameras.RescaledSample | src/renderer/camera/Camera.ts:205-207 | a rescaled sample times the viewport size is twice the table entry's offset from 0.5, per axis |
| Cameras.RescaledTable | src/renderer/camera/Camera.ts:203-208 | the rescaled table has 16 entries, entry i rescaled from table entry i |
| Cameras.RescaledSampleWithinHalfPixel | src/renderer/camera/Camera.ts:203-208 | a rescaled sample shifts the projection by less than half a pixel on each axis |
| Cameras.Step | src/renderer/camera/Camera.ts:211-239 | setting the switch stores it and raises the changed flag; a frame start lowers the flag, writes the sample `counter % 16` while jitter is on, zeroes the offset if jitter was just turned off, else keeps it; a frame end advances the counter |
| Cameras.FrameEndsAdvanceCounter | src/renderer/camera/Camera.ts:236-239 | k frame ends advance the counter by k and change nothing else of the jitter state |
| Cameras.JitterSampleRecurs | src/renderer/camera/Camera.ts:211-239 | while jitter is on, after any sequence of frame starts and frame ends with no switch event and 16n frame ends, the next frame start writes the same offset as it would have before |
| Cameras.JitterSampleRecursAfterFrames | src/renderer/camera/Camera.ts:211-239 | while jitter is on, after 16n whole frames (start then end) the next frame start writes the same offset |
| Cameras.UnswitchedRun | src/renderer/camera/Camera.ts:211-239 | a run with no switch event keeps the jitter switch and advances the counter by its number of frame ends |
| Cameras.FramesHaveEnds | src/renderer/camera/Camera.ts:211-239 | k whole frames contain no switch event and exactly k frame ends |
| Cameras.QuietFrameStartHasNoOffset | src/renderer/camera/Camera.ts:214-221 | a frame start with jitter off and the offset zero or a pending switch uploads a zero offset |
| Cameras.StaysQuiet | src/renderer/camera/Camera.ts:211-239 | no event except turning jitter on leaves that quiet state |
| Cameras.DisabledOffsetStaysZero | src/renderer/camera/Camera.ts:214-221 | after jitter is turned off, the next frame start uploads a zero offset, whatever follows that does not turn it on |
| Cameras.RunAppend | src/renderer/camera/Camera.ts:211-239 | running two event sequences in turn is running their concatenation |
| Cameras.CornerAt | src/renderer/camera/Camera.ts:124-130 | corner k has x and y in {-1,1} and z in {0,1} |
| Cameras.CornerAtIndexOf | src/renderer/camera/Camera.ts:124-139 | the enumeration lists no corner twice: each position is recovered from its corner |
| Cameras.IndexOfCornerAt | src/renderer/camera/Camera.ts:124-139 | every corner of the clip cube appears in the enumeration |
| Cameras.Camera.constructor | src/renderer/camera/Camera.ts:32-85 | a camera at the origin with zero matrices, jitter off, counter 0, an all-zero jitter table, and exactly one uniform buffer created |
| Cameras.Camera.SetShouldJitter | src/renderer/camera/Camera.ts:49-52 | the jitter state moves as `Step` does for a switch event |
| Cameras.Camera.OnFrameStart | src/renderer/camera/Camera.ts:211-234 | the jitter state moves as `Step` does for a frame start; only the uniform's jitter offset changes; exactly one upload of the whole uniform struct is logged |
| Cameras.Camera.OnFrameEnd | src/renderer/camera/Camera.ts:236-239 | the previous-frame matrix becomes the current projection-view; the jitter state moves as `Step` does for a frame end |
| Cameras.Camera.OnResize | src/renderer/camera/Camera.ts:195-209 | the viewport size is recorded in the camera and its uniforms, and the table becomes `RescaledTable(w, h)` |
| Cameras.Camera.SetPosition | src/renderer/camera/Camera.ts:143-150 | the position becomes (x,y,z) and is mirrored into the uniforms, nothing else of them changes |
| Cameras.Camera.SetX | src/renderer/camera/Camera.ts:87-92 | only the x component changes and the uniforms' position follows |
| Cameras.Camera.SetY | src/renderer/camera/Camera.ts:98-103 | only the y component changes and the uniforms' position follows |
| Cameras.Camera.SetZ | src/renderer/camera/Camera.ts:109-114 | only the z component changes and the uniforms' position follows |
| Cameras.Camera.SetLookAt | src/renderer/camera/Camera.ts:152-156 | the target becomes (x,y,z); the uniforms are untouched |
| Cameras.Camera.SetLookAtVec3 | src/renderer/camera/Camera.ts:158-160 | the target becomes `v` |
| Cameras.Camera.UpdateProjectionMatrix | src/renderer/camera/Camera.ts:175-181 | only the uniforms' projection matrix changes, to the camera's |
| Cameras.Camera.UpdateProjectionViewMatrix | src/renderer/camera/Camera.ts:183-193 | projection-view = projection · view, the inverse is its inverse, and those two with the previous frame's matrix are copied into the uniforms |
| Cameras.Camera.UpdateViewMatrix | src/renderer/camera/Camera.ts:162-173 | view = look-at(position, target, up); the projection-view cascade always follows |
| Cameras.Camera.FrustumCornersWorldSpace | src/renderer/camera/Camera.ts:120-141 | eight corners, corner k being the k-th clip-cube corner taken through the inverse projection-view |
| PointLightsPass.SquaredDistance | src/app/render-passes/PointLightsNonCulledRenderPass.ts:160 | a squared distance is never negative |
| PointLightsPass.ClassifyComparesDistance | src/app/render-passes/PointLightsNonCulledRenderPass.ts:160-162 | the camera counts as outside a light exactly when the distance is strictly greater than radius + 0.1 |
| PointLightsPass.LightDraws | src/app/render-passes/PointLightsNonCulledRenderPass.ts:159-162 | one entry per light, in list order, with that light's classification and bind group |
| PointLightsPass.Faces | src/app/render-passes/PointLightsNonCulledRenderPass.ts:157-178 | the classifications of the lights, in order |
| PointLightsPass.DedupIsRuns | src/app/render-passes/PointLightsNonCulledRenderPass.ts:157-178 | collapsing runs leaves no equal neighbours, ends with the last classification, and has one entry plus one per change |
| PointLightsPass.PipelineSeq | src/app/render-passes/PointLightsNonCulledRenderPass.ts:163-175 | each classification is mapped to its pipeline: outside to the back-face-culling one, inside to the front-face-culling one |
| PointLightsPass.SetPipelinePerRun | src/app/render-passes/PointLightsNonCulledRenderPass.ts:157-178 | the loop's `setPipeline` calls bind the pipelines of the maximal runs of equal classification, one per run, in order |
| PointLightsPass.SetPipelineCount | src/app/render-passes/PointLightsNonCulledRenderPass.ts:157-178 | the loop makes one `setPipeline` call for the first light plus one per change of classification |
| PointLightsPass.LightCallsDraws | src/app/render-passes/PointLightsNonCulledRenderPass.ts:159-182 | the k-th draw sees the pipeline of light k's classification and light k's bind group in slot 1, with slot 0 and the buffers untouched |
| PointLightsPass.PassPreludeBinds | src/app/render-passes/PointLightsNonCulledRenderPass.ts:145-155 | beginning the pass draws nothing and leaves exactly the sphere's buffers and the G-buffer bind group bound |
| PointLightsPass.EpilogueDrawsNothing | src/app/render-passes/PointLightsNonCulledRenderPass.ts:183-185 | ending the pass draws nothing |
| PointLightsPass.EachLightDrawnWithItsPipeline | src/app/render-passes/PointLightsNonCulledRenderPass.ts:145-185 | the pass draws once per light in list order, each draw with its classification's pipeline, the G-buffer group in slot 0, the light's group in slot 1 and the sphere's buffers |
| PointLightsPass.PointLightPipelines.constructor | src/app/render-passes/PointLightsNonCulledRenderPass.ts:25-26 | no shared pipeline exists before the first pass is built |
| PointLightsPass.PointLightsNonCulledRenderPass.constructor | src/app/render-passes/PointLightsNonCulledRenderPass.ts:28-82 | the two shared pipelines are created once, back faces culled first and then front faces culled, and reused by later instances |
| PointLightsPass.PointLightsNonCulledRenderPass.CreateRenderPassDescriptor | src/app/render-passes/PointLightsNonCulledRenderPass.ts:84-106 | memoised: the first call builds the descriptor from view 4 (loaded) and read-only depth view 2, later calls return it unchanged |
| PointLightsPass.PointLightsNonCulledRenderPass.EnsureInputViews | src/app/render-passes/PointLightsNonCulledRenderPass.ts:113-143 | on the first render only, six views are created (the dummy R16F texture standing in for a missing SSAO input) and the G-buffer group is rebuilt; later renders change nothing |
| PointLightsPass.CreateInputViews | src/app/render-passes/PointLightsNonCulledRenderPass.ts:113-133 | six consecutive fresh views: inputs 0 and 1, all aspects then the depth aspect of input 2, input 3, and the SSAO input or, when there is none, the dummy R16F texture |
| PointLightsPass.PointLightsNonCulledRenderPass.WireGBuffer | src/app/render-passes/PointLightsNonCulledRenderPass.ts:135-142 | G-buffer entries 0 to 3 get views 0, 1, 3 and 5, entry 4 the camera buffer, then the group is rebuilt |
| PointLightsPass.PointLightsNonCulledRenderPass.Render | src/app/render-passes/PointLightsNonCulledRenderPass.ts:108-189 | the log grows by the view wiring (first render only) and the pass calls; it returns the lighting target alone |
| PointLightsPass.PointLightsNonCulledRenderPass.DrawLights | src/app/render-passes/PointLightsNonCulledRenderPass.ts:157-182 | the loop appends exactly `LightCalls` of the lights classified against the camera position |
| PointLightsPass.PointLightsNonCulledRenderPass.DrawLight | src/app/render-passes/PointLightsNonCulledRenderPass.ts:162-181 | a light issues `setPipeline` only when its classification's pipeline was not bound by the previous light, then its bind group and one indexed draw; afterwards exactly the flag of its own classification is set |
| PointLightsPass.PointLightsNonCulledRenderPass.EncodePass | src/app/render-passes/PointLightsNonCulledRenderPass.ts:145-185 | the pass appends the prelude (index and vertex buffer, G-buffer group), the per-light calls of the classified lights, end and post-render, and creates nothing |
| DirectionalAmbientPass.Rebind | src/app/render-passes/DirectionalAmbientLightRenderPass.ts:40-56 | rebinding a slot changes only that slot's resource and keeps every binding number |
| DirectionalAmbientPass.RebindCommutes | src/app/render-passes/DirectionalAmbientLightRenderPass.ts:38-61 | rebinding two different slots gives the same table in either order |
| DirectionalAmbientPass.SingleDrawBindsBothGroups | src/app/render-passes/DirectionalAmbientLightRenderPass.ts:348-368 | the pass draws exactly once, with the shared pipeline, the G-buffer group in slot 0 and the shadow group in slot 1, with or without debug groups |
| DirectionalAmbientPass.InitialEntries | src/app/render-passes/DirectionalAmbientLightRenderPass.ts:168-209 | the shadow table built by the constructor has eight entries whose bindings are 0 to 7, in order |
| DirectionalAmbientPass.CreateShadowTable | src/app/render-passes/DirectionalAmbientLightRenderPass.ts:70-209 | two samplers, the SSAO mix buffer written with 1, and an eight-entry table with dummy views in slots 2 to 5 |
| DirectionalAmbientPass.CreateSamplersAndMix | src/app/render-passes/DirectionalAmbientLightRenderPass.ts:70-92 | the shadow sampler, the environment sampler and the one-float SSAO mix buffer get consecutive fresh handles, and the buffer is written with 1 |
| DirectionalAmbientPass.CreateDummyViews | src/app/render-passes/DirectionalAmbientLightRenderPass.ts:179-198 | four fresh views for slots 2 to 5: the 2D dummy, the cube dummy twice as cube views, the 2D dummy |
| DirectionalAmbientPass.DirectionalAmbientPipelines.constructor | src/app/render-passes/DirectionalAmbientLightRenderPass.ts:17 | no shared pipeline exists before the first pass is built |
| DirectionalAmbientPass.DirectionalAmbientLightRenderPass.constructor | src/app/render-passes/DirectionalAmbientLightRenderPass.ts:63-260 | the shadow table as built, the shared pipeline created only if absent, then the output texture and its view |
| DirectionalAmbientPass.DirectionalAmbientPipelines.EnsurePipeline | src/app/render-passes/DirectionalAmbientLightRenderPass.ts:211-239 | the shared pipeline is created only when no earlier instance created it; otherwise the log and the handle are unchanged |
| DirectionalAmbientPass.CreateOutput | src/app/render-passes/DirectionalAmbientLightRenderPass.ts:241-259 | the output texture of the viewport size and then its view, with consecutive fresh handles |
| DirectionalAmbientPass.DirectionalAmbientLightRenderPass.SetSsaoMixFactor | src/app/render-passes/DirectionalAmbientLightRenderPass.ts:31-37 | exactly one write of `v` into the mix buffer |
| DirectionalAmbientPass.DirectionalAmbientLightRenderPass.RecreateDirLightShadowBindGroup | src/app/render-passes/DirectionalAmbientLightRenderPass.ts:291-298 | a new shadow bind group is built from the current table |
| DirectionalAmbientPass.DirectionalAmbientLightRenderPass.SetSlotTexture | src/app/render-passes/DirectionalAmbientLightRenderPass.ts:38-61 | a view of the texture replaces slot k only, then the shadow group is rebuilt from the new table |
| DirectionalAmbientPass.DirectionalAmbientLightRenderPass.SetDiffuseIBLTexture | src/app/render-passes/DirectionalAmbientLightRenderPass.ts:39-45 | a cube view replaces slot 3 only, then the shadow group is rebuilt |
| DirectionalAmbientPass.DirectionalAmbientLightRenderPass.SetSpecularIBLTexture | src/app/render-passes/DirectionalAmbientLightRenderPass.ts:47-53 | a cube view replaces slot 4 only, then the shadow group is rebuilt |
| DirectionalAmbientPass.DirectionalAmbientLightRenderPass.SetBDRFLutTexture | src/app/render-passes/DirectionalAmbientLightRenderPass.ts:55-61 | a 2D view replaces slot 5 only, then the shadow group is rebuilt |
| DirectionalAmbientPass.DirectionalAmbientLightRenderPass.CreateRenderPassDescriptor | src/app/render-passes/DirectionalAmbientLightRenderPass.ts:262-289 | memoised: the output view cleared, read-only depth on view 3; later calls return it unchanged |
| DirectionalAmbientPass.DirectionalAmbientLightRenderPass.EnsureInputViews | src/app/render-passes/DirectionalAmbientLightRenderPass.ts:313-346 | on the first render only: six views, the G-buffer wiring, the shadow-map view put into slot 2 and the shadow group rebuilt; later renders change nothing |
| DirectionalAmbientPass.CreateInputViews | src/app/render-passes/DirectionalAmbientLightRenderPass.ts:305-329 | six consecutive fresh views: inputs 0 and 1, the depth aspect then all aspects of input 2, input 3 as a 2D array, and the SSAO input or the dummy R16F texture |
| DirectionalAmbientPass.DirectionalAmbientLightRenderPass.SetShadowMapView | src/app/render-passes/DirectionalAmbientLightRenderPass.ts:343-345 | only slot 2 of the shadow table changes, to the shadow-map view, with its binding number kept, and the shadow group is rebuilt over the new table |
| DirectionalAmbientPass.DirectionalAmbientLightRenderPass.WireGBuffer | src/app/render-passes/DirectionalAmbientLightRenderPass.ts:331-341 | G-buffer entries 0 to 3 get views 0, 1, 2 and 5, entry 4 the camera buffer, entry 5 the lights buffer, then the group is rebuilt |
| DirectionalAmbientPass.DirectionalAmbientLightRenderPass.Render | src/app/render-passes/DirectionalAmbientLightRenderPass.ts:300-369 | on the first render: six fresh input views, the G-buffer group rebuilt over them, then slot 2 of the shadow table set to the shadow-map view (view 4) and the shadow group rebuilt, in exactly that order of calls; later renders create nothing and keep the views, both groups and the table; every render then appends the pass calls and returns the output textures |
| DirectionalAmbientPass.DirectionalAmbientLightRenderPass.EncodePass | src/app/render-passes/DirectionalAmbientLightRenderPass.ts:348-366 | appends exactly the pass calls and creates nothing |
| TAAResolvePass.TextureEntries | src/app/render-passes/TAAResolveRenderPass.ts:170-193 | the bind group's bindings are 0, 1 and 2 |
| TAAResolvePass.ResolveDrawsOnceThenCopies | src/app/render-passes/TAAResolveRenderPass.ts:194-211 | one draw with the resolve pipeline and the texture group bound; the copy of output to history comes right after the pass ends |
| TAAResolvePass.TAAResolveRenderPass.constructor | src/app/render-passes/TAAResolveRenderPass.ts:32-92 | the pass builds its own pipeline and has no textures yet |
| TAAResolvePass.TAAResolveRenderPass.OnResize | src/app/render-passes/TAAResolveRenderPass.ts:94-149 | each old texture is destroyed before its replacement and view are created; the copy goes from output to history over a one-layer extent; a bind group built earlier is kept and no longer samples the current history view |
| TAAResolvePass.TAAResolveRenderPass.ReplaceOutTexture | src/app/render-passes/TAAResolveRenderPass.ts:95-118 | the old output texture (if any) is destroyed, then a new one and its view are created; it is the copy source |
| TAAResolvePass.TAAResolveRenderPass.ReplaceHistoryTexture | src/app/render-passes/TAAResolveRenderPass.ts:120-142 | the old history texture (if any) is destroyed, then a new one and its view are created; it is the copy destination |
| TAAResolvePass.TAAResolveRenderPass.OnResizeInvalidating | src/app/render-passes/TAAResolveRenderPass.ts:94-149 | corrected resize: the same calls, and the input views and bind group are dropped so the next render samples the current history |
| TAAResolvePass.TAAResolveRenderPass.Render | src/app/render-passes/TAAResolveRenderPass.ts:165-214 | the first render creates two views and the bind group on the current history view; every render appends the pass calls and returns the output texture; a current binding stays current |
| TAAResolvePass.TAAResolveRenderPass.BindInputs | src/app/render-passes/TAAResolveRenderPass.ts:170-193 | two fresh views of inputs 0 and 1 and a bind group over them and the current history view, which the pass then records as bound |
| TAAResolvePass.TAAResolveRenderPass.EncodePass | src/app/render-passes/TAAResolveRenderPass.ts:194-211 | begin, pipeline, bind group, one draw, end, then the output-to-history copy and the timing resolve; nothing is created |
| TAAResolvePass.StaleHistoryAfterResize | src/app/render-passes/TAAResolveRenderPass.ts:94-193 | after resize, render, resize, render, the bind group samples view 4 of destroyed texture 3, while the current history view is 11 |
| TAAResolvePass.FreshHistoryAfterResize | src/app/render-passes/TAAResolveRenderPass.ts:170-193 | with the invalidating resize, the same sequence binds the current history view |
| TransparentPass.CameraEntries | src/app/render-passes/TransparentRenderPass.ts:60-77 | the camera group binds the camera buffer at 0 and the lights buffer at 1 |
| TransparentPass.NodesDrawnWithCameraBound | src/app/render-passes/TransparentRenderPass.ts:55-89 | transparent nodes are drawn once, inside the debug group, after the camera group is built and bound, before the pass ends |
| TransparentPass.TransparentRenderPass.constructor | src/app/render-passes/TransparentRenderPass.ts:10-12 | no camera, no views, no bind group yet |
| TransparentPass.TransparentRenderPass.SetCamera | src/app/render-passes/TransparentRenderPass.ts:18-21 | replaces the camera only and returns the pass itself |
| TransparentPass.TransparentRenderPass.Render | src/app/render-passes/TransparentRenderPass.ts:43-92 | views of inputs 0 and 1 on the first call only; a new camera group on every call; the pass calls appended; the inputs returned unchanged |
| TransparentPass.TransparentRenderPass.EncodePass | src/app/render-passes/TransparentRenderPass.ts:55-89 | a fresh camera bind group over the camera and lights buffers, built inside the debug group and bound before the transparent nodes are drawn |
| TransparentPass.CameraGroupPerFrame | src/app/render-passes/TransparentRenderPass.ts:48-77 | two renders reuse the same views but bind two different camera groups |
| GLTFGeometries.Lookup | src/renderer/geometry/GLTFGeometry.ts:38-46 | a missing buffer view gives no buffer, a present one gives its mapped buffer |
| GLTFGeometries.MissingCount | src/renderer/geometry/GLTFGeometry.ts:24-43 | at most one placeholder per attribute name |
| GLTFGeometries.Slots | src/renderer/geometry/GLTFGeometry.ts:24-43 | one vertex slot per attribute name |
| GLTFGeometries.SlotIsAttributeOrPlaceholder | src/renderer/geometry/GLTFGeometry.ts:24-43 | slot i is the buffer of attribute i's buffer view when present, otherwise placeholder number `base` plus the attributes missing before it |
| GLTFGeometries.MissingCountGrows | src/renderer/geometry/GLTFGeometry.ts:26-35 | placeholders are numbered consecutively: each missing attribute adds one |
| GLTFGeometries.MissingCountPrefix | src/renderer/geometry/GLTFGeometry.ts:26-35 | the placeholder count never decreases along the attribute list |
| GLTFGeometries.OffsetsPerSlot | src/renderer/geometry/GLTFGeometry.ts:32-41 | every placeholder slot has offsets (0,1); a real buffer has (0,0) when the mapped buffers predate the placeholders |
| GLTFGeometries.PositionInSlotZero | src/renderer/geometry/GLTFGeometry.ts:15-40 | a primitive with POSITION gets its position buffer in vertex slot 0 |
| GLTFGeometries.PlaceholdersFresh | src/renderer/geometry/GLTFGeometry.ts:27-31 | every placeholder handle is fresh: at least `base`, below `base` plus the missing count |
| GLTFGeometries.GLTFGeometry.constructor | src/renderer/geometry/GLTFGeometry.ts:9-56 | four vertex slots in attribute order with a size-1 placeholder per missing attribute, the offsets map, and, for an indexed primitive, the index range (byte offset, count × element size), index count and index buffer |
| GLTFGeometries.GLTFGeometry.PushVertexBuffers | src/renderer/geometry/GLTFGeometry.ts:24-43 | the loop pushes exactly `Slots` and records exactly `OffsetsOf`, creating one placeholder per missing attribute |
| GLTFGeometries.FromPrimitive | src/renderer/geometry/GLTFGeometry.ts:9-56 | succeeds exactly for an indexed primitive with POSITION. Without POSITION it fails with "GLTF Mesh needs to have vertices array" and creates nothing. With POSITION it always creates one placeholder per missing attribute; a non-indexed primitive then fails on reading the absent index accessor. On success the geometry is built as the constructor does: slots, offsets map, index range, count and buffer |

## Left out

- Floating point: every number is a real. NaN, rounding and `Float32Array` storage are not modelled, and neither is `clamp`'s behaviour on NaN.
- `deg2Rad` and `rad2Deg` (src/utils/math.ts:6-8) need π, which has no exact real value here.
- Matrix arithmetic: the matrix library is symbolic. Only scaling, translation and a zero rotation act on points. The quaternion built from the Euler angles is folded into one `EulerRotation` term.
- `Transform.getWorldPosition` and the plain getters of `Transform` and `Camera` are not modelled; they only read fields.
- The setters of `Transform` return `this` for chaining; the model's setters return nothing.
- Each node's id is a parameter of the constructor; the source draws a random UUID.
- `Transforms.Transform.Traverse` returns the visited nodes instead of calling a visitor, and takes a hierarchy snapshot as its termination measure. What the visitor does to the nodes is not modelled.
- `Transforms.Transform.Traverse` takes `recursive` as a required argument; the source's default of `false` is not modelled. The finite hierarchy snapshot rules out cyclic child links, which `addChild` does not prevent; on a cycle the source recurses without end.
- `Transforms.Transform.UpdateWorldMatrix` takes the shared identity matrix (`MAT4x4_IDENTITY_MATRIX`) as a parameter instead of reading a module-level constant. Other code that reads that matrix is not part of this model.
- `Cameras.Camera.SetLookAtVec3` copies the vector's value. The source stores the caller's array by reference, so a later `setLookAt` writes into the caller's vector and a later change by the caller moves the target. That aliasing is not modelled.
- Setting the rendering context's active render pass (`setActiveRenderPass`, DirectionalAmbientLightRenderPass.ts:352 and TAAResolveRenderPass.ts:198) is not modelled. `bindRenderPSO` is modelled as a `setPipeline` call on the pass just begun, so `DirectionalAmbientPass.SingleDrawBindsBothGroups` and `TAAResolvePass.ResolveDrawsOnceThenCopies` assume that call reaches that pass. The context's caching of the bound pipeline is not modelled either; `RenderingContext` is not part of this model.
- `Cameras.Camera.FrustumCornersWorldSpace` leaves out the perspective divide by w. Each corner is the clip-cube corner paired with the inverse matrix.
- `Cameras.Camera.OnResize` requires a non-zero width and height, because the rescaled table divides by them.
- The render-pass base class is not part of this model. That includes the G-buffer bind-group entries, `postRender`, timestamp-query augmentation of descriptors, bind-group and pipeline layouts and shader modules. Their effects appear as opaque calls in the log (`RecreateGBufferBindGroup`, `PostRender`, `ResolveTiming`).
- The camera the passes read comes in as a constructor parameter. In the source it comes from the base class.
- The samplers and placeholder textures come from samplers and a texture loader that are not part of this model. A sampler is modelled as a fresh handle, and the dummy textures as a parameter.
- The rendering context's `ENABLE_DEBUG_GROUPS` switch is a parameter of the directional pass's `Render`; the rendering context is not part of this model.
- `BIND_GROUP_LOCATIONS.CameraPlusOptionalLights` is a constructor parameter of the transparent pass. It is defined in src/renderer/core/RendererBindings.ts, which is not part of this model.
- Setting `Renderer.activeRenderPass` at the start of the transparent pass is not modelled; the renderer singleton is not part of this model.
- `TransparentPass.TransparentRenderPass.Render` requires a camera to be set; the source would fail on a missing camera.
- `TransparentPass.TransparentRenderPass.ToggleDebugCamera` is empty in the source, so it has no contract.
- `TAAResolvePass.TAAResolveRenderPass.Render` requires a prior resize, since the source reads the textures that `onResize` creates.
- Store operations are not modelled: every attachment in the model is stored. A depth attachment that is not read-only is loaded and stored.
- `GLTFGeometries.IndexRange` states no property beyond its definition: offset and byte length (count × element size).
- `GLTFGeometries.OffsetsPerSlot`: the (0,0) offsets of a real buffer are stated only when the mapped buffers predate the placeholders. Otherwise a placeholder could share a handle with a mapped buffer and overwrite its entry.
- `firstIndex` is always 0, as in the source.
- The error for a non-indexed primitive (`GLTFGeometries.NoIndicesMessage`) is the message a V8-based JavaScript runtime gives for reading a property of `undefined`; the source does not choose it.
- `src/camera/PerspectiveCamera.ts`, `src/renderer/lighting/PointLight.ts` and the rest of `src/app/constants.ts` are not part of this model. A point light is its position, radius and bind group.
- VRAM usage tracking, labels of GPU objects other than pipelines and passes, and texture formats and usages are left out.

Where the code departs from what the renderer evidently intends, the model follows the code:

- **Local matrix order.** The code multiplies scale · rotation · translate, so a point is translated before it is scaled. Scale (2,1,1) with position (5,0,0) sends (1,0,0) to (12,0,0), not (7,0,0).
- **Clean world update.** A clean `updateWorldMatrix` writes into the parent's world matrix, or the shared identity matrix, and not into its own.
- **Light classification.** The camera is outside a light only when the distance is strictly greater than radius + 0.1.
- **TAA resize.** The resolve pass's bind group is not rebuilt on resize.
- **TAA pipeline.** The resolve pipeline is created per instance, not shared.

## Findings

| source | as written | input that shows it | evidently intended | confidence | as-written member | corrected member |
|---|---|---|---|---|---|---|
| src/core/Transform.ts:38-46 | the scale and translate matrices are multiplied onto their previous values on every dirty update | set position (5,0,0), update, set position (5,0,0), update: the origin lands at (10,0,0) | the local matrix depends only on the current position, rotation and scale: (5,0,0) | not executed | Transforms.RepeatedUpdateCompounds | Transforms.IntendedRepeatedUpdate |
| src/core/Transform.ts:48-50 | local = scale · rotation · translate, so translation is applied before scaling | scale (2,1,1), position (5,0,0), point (1,0,0): image (12,0,0) | scale, then rotate, then translate: image (7,0,0) | not executed | Transforms.WrittenLocalOrder | Transforms.IntendedLocalOrder |
| src/core/Transform.ts:33 | a clean update writes local · world into the parent's world matrix, or into the shared identity matrix for a root, and leaves its own world matrix unchanged | a root at (5,0,0) updated twice, then a new root at the origin updated once: its origin lands at (10,0,0) | world = parent world · local and nothing else written: (0,0,0) | not executed | Transforms.CleanUpdateCorruptsIdentity | Transforms.IntendedCleanUpdateKeepsIdentity |
| src/app/render-passes/TAAResolveRenderPass.ts:94-149 | `onResize` destroys and recreates the history texture, but keeps the bind group built on the first render from the old history view | resize, render, resize, render: the bind group samples view 4 of texture 3, which the second resize destroyed; the current history view is 11 | the bind group is rebuilt after a resize, so it samples the current history view | not executed | TAAResolvePass.StaleHistoryAfterResize | TAAResolvePass.FreshHistoryAfterResize |
