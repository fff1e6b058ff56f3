# Pathfinder renderer core, modelled in Dafny

This project models the integer and state-machine core of the Pathfinder C++
renderer:

- the mesh index resolver that maps a 1-based range of path IDs onto buffer
  indices;
- the `Renderer` frame orchestration (`renderAtlas`, `attachMeshes`,
  `setAntialiasingOptions`, the lazy per-object texture uploads, the skip rules
  of `directlyRenderObject` and the `hasUniform` guards of the uniform setters);
- the XCAA antialiasing strategies (MCAA, StencilAAA and the adaptive strategy
  that owns one of each);
- the shader program table and its fail-fast build loop.

Every GL call is an event appended to an abstract command log
(`Trace.CommandStream`). Creating a GL object hands out the next integer name,
so the contracts can say exactly which names new textures, vertex arrays and
programs get. Classes with mutable fields in the source (`Renderer`,
`XCAAStrategy`, `PathfinderShaderProgram`, `ShaderManager`) are Dafny classes.
Their methods are proved against pure functions of the old state: a step
function for a strategy operation, `FrameEvents` for a whole `renderAtlas`
call, `InitEvents` for `ShaderManager::init`. Lemmas then prove what the source
promises about those functions: call orders and counts, the skip rules,
ascending and descending resolver laws, and when the two index formulations
agree.

Modules:

- `Geometry`: `Range`, `Size`, `Option`, `Color`.
- `Trace`: the command log, call patterns and counting.
- `MeshIndex`: `getMeshIndexRange` and `calculateStart/CountFromIndexRanges`.
- `RendererState`: renderer.h state types and the small lookups.
- `ShaderLoader`: programs and the shader manager.
- `XcaaStrategies`: property tables, step functions and the concrete strategy class.
- `AdaptiveStrategy`: the adaptive strategy.
- `FrameSpec`: the trace of one frame, and counting lemmas over it.
- `Rendering`: the `Renderer` class.

## Model

| member | source | states |
|---|---|---|
| MeshIndex.GetMeshIndexRange | pathfinder/src/renderer.cpp:611-647 | An empty table gives `(0, 0)`. Otherwise both bounds of the result are a start or an end of some table entry. |
| MeshIndex.EmptyTableLaw | pathfinder/src/renderer.cpp:613-615 | An empty table resolves every path range to `(0, 0)`. |
| MeshIndex.AscendingLaw | pathfinder/src/renderer.cpp:620-638 | On an ascending table with `1 <= s <= |T|`, the result is `(T[s-1].start, T[e-1].start)` when `e-1` is inside the table, else `(T[s-1].start, last.end)`. |
| MeshIndex.DescendingLaw | pathfinder/src/renderer.cpp:625-644 | On a descending table, after the swap, the result is `(T[e-2].start, T[s-1].end)`. |
| MeshIndex.StartClampLaw | pathfinder/src/renderer.cpp:623-624 | A 0-based start at or past the table size clamps to the last end. This includes a negative start, through the int/size_t comparison. The clamped value is the result's start when ascending and its end after the swap. |
| MeshIndex.ZeroPathRangeLaw | pathfinder/src/renderer.cpp:623-638 | The `(0, 0)` path range resolves, on an ascending table, to the empty range at the last end. |
| MeshIndex.WorkedExample | pathfinder/src/renderer.cpp:620-638 | Paths 1..2 of `[(0,2),(2,5),(5,9)]` resolve to `(0, 5)`. |
| MeshIndex.AscendingDetected | pathfinder/src/renderer.cpp:617-618 | A table of valid, non-overlapping ranges in ascending order is never read as descending. |
| MeshIndex.DescendingDetected | pathfinder/src/renderer.cpp:617-618 | A descending table with two or more entries and a non-empty last entry is read as descending. |
| MeshIndex.AscendingResolvedCoversPaths | pathfinder/src/renderer.cpp:611-647 | On an ascending table, the resolved range is valid and contains the index range of every path it names. |
| MeshIndex.DescendingResolvedCoversPaths | pathfinder/src/renderer.cpp:611-647 | On a descending table, the swap yields a valid (low, high) range that contains every named path's index range. |
| MeshIndex.AscendingContiguousExact | pathfinder/src/renderer.cpp:611-647 | On a gap-free ascending table, the result is exactly first-start to last-end of the named paths. |
| MeshIndex.CalculateStartFromIndexRanges | pathfinder/src/xcaa-strategy.cpp:856-860 | Returns 0 on an empty table; otherwise returns a table bound (`T[s-1].start`). |
| MeshIndex.CalculateCountFromIndexRanges | pathfinder/src/xcaa-strategy.cpp:862-879 | Returns 0 on an empty table; otherwise start plus count lands on a table bound. |
| MeshIndex.StartCountAgreeWithResolver | pathfinder/src/xcaa-strategy.cpp:856-879 | On ascending tables, the offset equals the resolver's start and the count equals the resolver's length. |
| MeshIndex.StartCountDisagreeOnDescending | pathfinder/src/xcaa-strategy.cpp:862-879 | On a descending table, the count can be negative where the resolver gives the right range. |
| MeshIndex.AscendingCountNonNegative | pathfinder/src/xcaa-strategy.cpp:862-879 | On ascending tables, a forward path range never yields a negative count. |
| RendererState.BuffersFor | pathfinder/src/renderer.cpp:65-74 | The GPU buffers built from a mesh keep its two per-path tables. |
| RendererState.MeshIndexForObject | pathfinder/src/renderer.cpp:298-301 | Each object uses the mesh at its own index. |
| RendererState.PathRangeForObject | pathfinder/src/renderer.cpp:304-311 | `(0, 0)` without buffers. Otherwise the range starts at 1, its length is the object's path count, and it is valid. |
| RendererState.InstanceRangeForObject | pathfinder/src/renderer.cpp:375-378 | Always the single instance 0, so the range is never empty. |
| RendererState.ClearColorForObject | pathfinder/src/renderer.h:102-104 | Every object clears to the zero vector. |
| RendererState.PathIDsAreInstanced | pathfinder/src/renderer.h:95-97 | Always false. |
| RendererState.CreatePathTransformBuffers | pathfinder/src/renderer.cpp:381-387 | `st` has `4(p+1)` zeros. `ext` has between `2(p+1)` and `2(p+1)+4` zeros, always a multiple of 4. |
| RendererState.ObjectRangeCoversTable | pathfinder/src/renderer.cpp:304-311 | An object's own path range resolves against a table of the same length to the whole table, in either direction. |
| Geometry.Scale | pathfinder/src/xcaa-strategy.cpp:57-65 | The supersampled size is the per-component product: identity for scale `(1, 1)`, and never smaller for scales of at least 1. |
| XcaaStrategies.DirectRenderingModeOf | pathfinder/src/xcaa-strategy.cpp:533-553 | The mode is never `color`, and it is `conservative` exactly for MCAA. |
| XcaaStrategies.PassCount | pathfinder/src/xcaa-strategy.cpp:761-764 | The adaptive strategy makes one pass; the concrete strategies keep the base count. |
| XcaaStrategies.MightUseAAFramebuffer | pathfinder/src/xcaa-strategy.cpp:304-307 | Both concrete strategies might use the AA framebuffer. |
| XcaaStrategies.UsesAAFramebuffer | pathfinder/src/xcaa-strategy.cpp:309-312 | Holds exactly for StencilAAA, or for MCAA on a monochrome renderer. It implies "might use". |
| XcaaStrategies.UsesResolveProgram | pathfinder/src/xcaa-strategy.cpp:314-317 | A strategy resolves exactly when it uses the AA framebuffer. |
| XcaaStrategies.AttachStep | pathfinder/src/xcaa-strategy.cpp:40-54 | The path-bounds list is emptied. A resolve VAO is created only when resolving. Two fresh patch buffers follow, in order. The strategy VAO is created by MCAA always and by StencilAAA only with meshes. No other field changes. |
| XcaaStrategies.AAFramebufferStep | pathfinder/src/xcaa-strategy.cpp:233-261 | Without "might use", all three handles reset to 0 and nothing is created. With it, three fresh increasing names are created, and both textures get the supersampled size. |
| XcaaStrategies.FramebufferSizeStep | pathfinder/src/xcaa-strategy.cpp:57-65 | Stores the destination size and the scaled supersampled size, rebuilds the AA framebuffer, and ends with a framebuffer unbind. |
| XcaaStrategies.FinishAAEvents | pathfinder/src/xcaa-strategy.cpp:68-85 | Always rebinds the destination. Without the AA framebuffer it does nothing more. |
| XcaaStrategies.PathBoundsTexture | pathfinder/src/xcaa-strategy.cpp:264-275 | Reuses an existing texture; a null slot gets a fresh name. |
| XcaaStrategies.AntialiasStep | pathfinder/src/xcaa-strategy.cpp:94-104 | Only the object's path-bounds slot changes, and it becomes non-null. A name is created only for a null slot. The first call uploads the bounds. |
| XcaaStrategies.ResolveEvents | pathfinder/src/xcaa-strategy.cpp:107-149 | Nothing without the AA framebuffer. Otherwise it binds the alpha texture and draws the resolve quad. |
| XcaaStrategies.SideDrawsShape | pathfinder/src/xcaa-strategy.cpp:575-606 | The side loop sets `uSide = i`, then draws once, for each side in order. |
| XcaaStrategies.StencilDrawsBothSides | pathfinder/src/xcaa-strategy.cpp:575-606 | StencilAAA draws nothing without meshes. Otherwise it makes exactly two instanced draws of the segment count, for side 0 and then side 1. |
| XcaaStrategies.McaaDrawsWholeObject | pathfinder/src/xcaa-strategy.cpp:494-530 | MCAA draws once with meshes. On an ascending box table, the offset and instance count are the resolver's start and length over the whole table. |
| XcaaStrategies.SupersampledScissorFits | pathfinder/src/xcaa-strategy.cpp:159-163 | The supersampled used area fits inside the supersampled framebuffer. |
| XcaaStrategies.ResolveDrawsOnce | pathfinder/src/xcaa-strategy.cpp:107-149 | Resolve draws exactly once with the AA framebuffer and never without it. |
| XcaaStrategies.XcaaStrategy.constructor | pathfinder/src/xcaa-strategy.cpp:26-37 | Every GL name is 0 and both sizes are zero. |
| XcaaStrategies.XcaaStrategy.CreateResolveVAO | pathfinder/src/xcaa-strategy.cpp:278-296 | New state, log and names are as `ResolveVAOStep` gives. |
| XcaaStrategies.XcaaStrategy.CreateVAO | pathfinder/src/xcaa-strategy.cpp:662-737 | New state, log and names are as `VAOStep` gives. |
| XcaaStrategies.XcaaStrategy.AttachMeshes | pathfinder/src/xcaa-strategy.cpp:40-54 | New state, log and names are as `AttachStep` gives. |
| XcaaStrategies.XcaaStrategy.InitAAAlphaFramebuffer | pathfinder/src/xcaa-strategy.cpp:233-261 | New state, log and names are as `AAFramebufferStep` gives. |
| XcaaStrategies.XcaaStrategy.SetFramebufferSize | pathfinder/src/xcaa-strategy.cpp:57-65 | New state, log and names are as `FramebufferSizeStep` gives. |
| XcaaStrategies.XcaaStrategy.FinishAntialiasingObject | pathfinder/src/xcaa-strategy.cpp:68-85 | Appends `FinishAAEvents` and creates nothing. |
| XcaaStrategies.XcaaStrategy.CreatePathBoundsBufferTextureForObjectIfNecessary | pathfinder/src/xcaa-strategy.cpp:264-275 | Only the object's slot changes, to `PathBoundsTexture`. One upload follows, and a name is created only for a null slot. |
| XcaaStrategies.XcaaStrategy.PrepareAA | pathfinder/src/xcaa-strategy.cpp:166-179 | Binds the AA framebuffer only when it is used, then sets the supersampled viewport and scissor. |
| XcaaStrategies.XcaaStrategy.ClearForAA | pathfinder/src/xcaa-strategy.cpp:347-356 | Clears only when the AA framebuffer is used. |
| XcaaStrategies.XcaaStrategy.AntialiasEdgesOfObject | pathfinder/src/xcaa-strategy.cpp:494-530 | Appends `EdgeEvents`, whose offset and count come from the two index formulations. |
| XcaaStrategies.XcaaStrategy.StencilAntialias | pathfinder/src/xcaa-strategy.cpp:575-606 | Appends `StencilEvents`; the two-iteration side loop is proved by its invariant. |
| XcaaStrategies.XcaaStrategy.AntialiasObject | pathfinder/src/xcaa-strategy.cpp:94-104 | New state, log and names are as `AntialiasStep` gives. |
| XcaaStrategies.XcaaStrategy.ResolveAAForObject | pathfinder/src/xcaa-strategy.cpp:107-149 | Appends `ResolveEvents`. |
| AdaptiveStrategy.AdaptiveStencilMeshStrategy.constructor | pathfinder/src/xcaa-strategy.cpp:747-752 | A fresh MCAA and a fresh StencilAAA are built with the same subpixel mode and scale. |
| AdaptiveStrategy.AdaptiveStencilMeshStrategy.AppropriateStrategy | pathfinder/src/xcaa-strategy.cpp:847-854 | Picks the stencil strategy iff the renderer needs stencilling, else the mesh strategy. |
| AdaptiveStrategy.AdaptiveStencilMeshStrategy.Init | pathfinder/src/xcaa-strategy.cpp:767-771 | Initialises the mesh strategy, then the stencil strategy. |
| AdaptiveStrategy.AdaptiveStencilMeshStrategy.AttachMeshes | pathfinder/src/xcaa-strategy.cpp:774-778 | Both strategies take their `AttachStep`, mesh strategy first; names are handed on in that order. |
| AdaptiveStrategy.AdaptiveStencilMeshStrategy.SetFramebufferSize | pathfinder/src/xcaa-strategy.cpp:781-785 | Both strategies take their `FramebufferSizeStep`, mesh strategy first. |
| AdaptiveStrategy.AdaptiveStencilMeshStrategy.Forward | pathfinder/src/xcaa-strategy.cpp:794-815 | Each inherited entry point is forwarded once, to the chosen strategy only. |
| AdaptiveStrategy.AdaptiveStencilMeshStrategy.AntialiasObject | pathfinder/src/xcaa-strategy.cpp:824-827 | The chosen strategy takes its `AntialiasStep`; the other keeps its state. |
| AdaptiveStrategy.AdaptiveStencilMeshStrategy.FinishAntialiasingObject | pathfinder/src/xcaa-strategy.cpp:806-809 | Appends the chosen strategy's `FinishAAEvents`. |
| AdaptiveStrategy.AdaptiveStencilMeshStrategy.ResolveAAForObject | pathfinder/src/xcaa-strategy.cpp:830-833 | Appends the chosen strategy's `ResolveEvents`. |
| ShaderLoader.ShaderProgram.constructor | pathfinder/src/shader-loader.cpp:123-129 | Program 0, every uniform slot -1; attribute slots are left arbitrary. |
| ShaderLoader.ShaderProgram.GetUniform | pathfinder/src/shader-loader.cpp:184-192 | -1 outside the table. The result is -1 exactly when `hasUniform` is false. |
| ShaderLoader.ShaderProgram.GetAttribute | pathfinder/src/shader-loader.cpp:195-203 | -1 outside the table. The result is -1 exactly when `hasAttribute` is false. |
| ShaderLoader.ShaderProgram.Load | pathfinder/src/shader-loader.cpp:139-181 | A failed link deletes the program, sets it to 0 and leaves both tables untouched. A successful link fills every uniform and attribute slot. |
| ShaderLoader.ShaderManager.constructor | pathfinder/src/shader-loader.cpp:18-21 | Exactly one empty slot per program. |
| ShaderLoader.ShaderManager.GetProgram | pathfinder/src/shader-loader.cpp:115-121 | Requires an ID inside the table and returns that slot. |
| ShaderLoader.ShaderManager.LoadShader | pathfinder/src/shader-loader.cpp:28-66 | Compiles once. On failure it deletes the shader and answers 0. |
| ShaderLoader.ShaderManager.LoadStage | pathfinder/src/shader-loader.cpp:77-94 | A shader loop stops right after its first failure. It succeeds iff enabled and everything compiled; untried slots stay 0. |
| ShaderLoader.ShaderManager.LinkPrograms | pathfinder/src/shader-loader.cpp:94-103 | A slot gets a fresh program exactly when all programs up to it linked; every other slot is unchanged. |
| ShaderLoader.ShaderManager.BuildSlot | pathfinder/src/shader-loader.cpp:95-102 | One program iteration takes one new name and extends the log by that program's `LoadEvents`. Slot `i` alone changes, and only when the link succeeds. |
| ShaderLoader.ShaderManager.DeleteShaders | pathfinder/src/shader-loader.cpp:105-110 | Every shader slot is deleted, in order, whether 0 or not. |
| ShaderLoader.ShaderManager.Init | pathfinder/src/shader-loader.cpp:69-112 | Returns true iff every shader compiles and every program links. Built slots hold the linked locations, all other slots are unchanged, and the log is `InitEvents`. |
| ShaderLoader.InitOutcome | pathfinder/src/shader-loader.cpp:69-112 | A successful init attempted every shader and program. With at least one program, success holds iff every program slot was filled. |
| ShaderLoader.CompileEventsCount | pathfinder/src/shader-loader.cpp:77-94 | A loop that attempts `k` shaders compiles exactly `k` times. |
| ShaderLoader.LinkEventsCount | pathfinder/src/shader-loader.cpp:94-103 | A loop that attempts `k` programs links exactly `k` times. |
| ShaderLoader.DeleteEventsCoverSlots | pathfinder/src/shader-loader.cpp:105-110 | The `j`-th delete is for slot `j`. |
| ShaderLoader.FirstFailure | pathfinder/src/shader-loader.cpp:77-103 | Everything before the index succeeded, and the index itself failed unless it is the end. |
| FrameSpec.DirectEvents | pathfinder/src/renderer.cpp:392-402 | Empty (not even `finishDirectlyRenderingObject`) exactly when meshes are absent or the instance range is empty. Otherwise it ends with `finishDirectlyRenderingObject`. |
| FrameSpec.FrameEvents | pathfinder/src/renderer.cpp:78-82 | A frame issues nothing exactly when there are no mesh buffers. |
| FrameSpec.FrameShape | pathfinder/src/renderer.cpp:78-119 | A frame starts with the atlas clear and `prepareForRendering`, and ends with the last pass's `resolve`. |
| FrameSpec.FrameStrategyCalls | pathfinder/src/renderer.cpp:77-119 | Counts each strategy call in a frame. `prepareForRendering` is called once and `resolve(p)` once per pass. `prepareForDirectRendering` is called once per pass only if direct. Each object's calls occur once per pass: `prepareToRenderObject` only if direct, `finishDirectlyRenderingObject` only if direct and attached, and the three antialiasing calls always. |
| FrameSpec.ObjectEventsCalls | pathfinder/src/renderer.cpp:94-114 | One object's iteration calls each per-object entry point as `CallsPerObject` says. |
| FrameSpec.ObjectLoopStepCalls | pathfinder/src/renderer.cpp:94-114 | One more object adds exactly that object's `CallsPerObject` to each entry point's count. |
| FrameSpec.PassLoopCalls | pathfinder/src/renderer.cpp:87-117 | `k` passes repeat the pass's calls `k` times, plus one `resolve(p)` for each `p < k`. |
| FrameSpec.PassLoopStepCalls | pathfinder/src/renderer.cpp:87-117 | One more pass adds the pass body's calls and one `resolve` of that pass. |
| FrameSpec.DirectDrawCount | pathfinder/src/renderer.cpp:430-496 | Direct rendering makes one draw for a conservative strategy and two otherwise, never instanced. |
| FrameSpec.DirectDrawsCount | pathfinder/src/renderer.cpp:430-496 | The draw count is 1 or 2 by mode; non-instanced rendering issues no instanced call. |
| FrameSpec.ColorDirectDraws | pathfinder/src/renderer.cpp:437-492 | In colour mode without instancing: interior bind and `glDrawElements(length, start)`, then curve bind and `glDrawArrays(start * 6, length * 6)`, then unbind. |
| FrameSpec.ColorModeDrawsCurves | pathfinder/src/renderer.cpp:94-114 | Inside a frame's object iteration, a colour-mode strategy issues the interior draw, then the curve vertex array and the curve draw over the object's cover range, between `prepareToRenderObject` and the antialiasing calls. |
| FrameSpec.DirectDrawsCurveCount | pathfinder/src/renderer.cpp:455-489 | Direct rendering draws curves once, except for a conservative strategy, which draws none. |
| FrameSpec.ObjectCurveDraws | pathfinder/src/renderer.cpp:94-114 | One object iteration draws one curve exactly when the strategy renders directly in colour with meshes attached. |
| FrameSpec.ObjectLoopCurveDraws | pathfinder/src/renderer.cpp:96-114 | `n` object iterations draw `n` times the per-object curve count. |
| FrameSpec.ObjectLoopCurveStep | pathfinder/src/renderer.cpp:96-114 | One more object iteration adds exactly its curve draws. |
| FrameSpec.PassLoopCurveDraws | pathfinder/src/renderer.cpp:90-117 | `k` passes draw `k` times the pass body's curves; the closing `resolve` draws none. |
| FrameSpec.PassLoopCurveStep | pathfinder/src/renderer.cpp:90-117 | One more pass adds the pass body's curve draws and no others. |
| FrameSpec.PassBodyCurveDraws | pathfinder/src/renderer.cpp:90-115 | One pass draws one curve per visited object when the strategy renders curves, and none otherwise. |
| FrameSpec.FrameCurveDraws | pathfinder/src/renderer.cpp:78-119 | A frame draws `passes * objects` curves for a colour-mode strategy with meshes attached, and none otherwise. |
| FrameSpec.XcaaFramesDrawNoCurves | pathfinder/src/renderer.cpp:78-119 | Under any XCAA strategy a frame draws no curves, and it renders directly exactly for MCAA. |
| Rendering.Resized | pathfinder/src/renderer.cpp:245 | `resize(n, null)` keeps the first `n` slots and pads with nulls. |
| Rendering.FillColorSlots | pathfinder/src/renderer.cpp:246-256 | Non-null slots are kept. The `k`-th null slot gets the `k`-th new name. One upload per slot, in order. |
| Rendering.FillTransformSlots | pathfinder/src/renderer.cpp:263-277 | Existing pairs are kept. The `k`-th empty slot gets the `k`-th new pair, `st` first. `st` and then `ext` are uploaded per slot, in order. |
| Rendering.FillTransformSlot | pathfinder/src/renderer.cpp:264-276 | An existing pair is reused without new names. An empty slot gets two new names, `st` first. Either way `st` and then `ext` are uploaded. |
| Rendering.TransformUploadsStep | pathfinder/src/renderer.cpp:263-277 | Filling one more slot appends exactly its `st` and `ext` uploads. |
| Rendering.NewColorTexturesDistinct | pathfinder/src/renderer.cpp:246-256 | New colour textures are pairwise distinct and within the names created. |
| Rendering.NewTransformTexturesDistinct | pathfinder/src/renderer.cpp:263-277 | New transform texture pairs are disjoint and within the names created. |
| Rendering.OptionsEvents | pathfinder/src/renderer.cpp:133-137 | `init` first and `setFramebufferSize` last; `attachMeshes` appears iff meshes are held. |
| Rendering.GuardedUniform | pathfinder/src/renderer.cpp:141-149 | No call exactly when the program lacks the uniform. Otherwise one call, never at location -1. |
| Rendering.SamplerBinding | pathfinder/src/renderer.cpp:328-335 | No call exactly when the sampler is absent. Otherwise it binds the texture, then sets the sampler to the unit. |
| Rendering.Renderer.constructor | pathfinder/src/renderer.cpp:31-37 | Gamma correction is on, there is no strategy, meshes or textures, and both VAOs are 0. |
| Rendering.Renderer.SetAntialiasingOptions | pathfinder/src/renderer.cpp:122-138 | The strategy and gamma mode are replaced and the log gets `OptionsEvents`; nothing else changes. |
| Rendering.Renderer.Init | pathfinder/src/renderer.cpp:52-62 | The options are set, then two fresh VAOs are created, interior first. Always succeeds. The VAO names follow the renderer's own creations only, because strategy calls take no names in this model. |
| Rendering.Renderer.AttachMeshes | pathfinder/src/renderer.cpp:65-74 | Keeps the meshes, builds one buffer set per mesh in order, then one strategy `attachMeshes`. |
| Rendering.Renderer.SetFramebufferSizeUniform | pathfinder/src/renderer.cpp:141-149 | Sets the allocated size only when the program has `uFramebufferSize`. |
| Rendering.Renderer.SetEmboldenAmountUniform | pathfinder/src/renderer.cpp:288-295 | Sets the amount only when the program has `uEmboldenAmount`. |
| Rendering.Renderer.BindGammaLUT | pathfinder/src/renderer.cpp:314-325 | Binds the gamma LUT only with `uGammaLUT`, then sets the background colour only with `uBGColor`. |
| Rendering.Renderer.BindAreaLUT | pathfinder/src/renderer.cpp:328-335 | Binds the area LUT only with `uAreaLUT`. |
| Rendering.Renderer.ClearDestFramebuffer | pathfinder/src/renderer.cpp:338-348 | Binds the atlas, sets the full viewport, and clears to the white background. |
| Rendering.Renderer.DirectlyRenderObject | pathfinder/src/renderer.cpp:390-499 | The log grows by exactly `DirectEvents`, which includes both skip rules. |
| Rendering.Renderer.RenderObject | pathfinder/src/renderer.cpp:94-114 | The log grows by exactly `ObjectEvents`. |
| Rendering.Renderer.RenderPass | pathfinder/src/renderer.cpp:87-117 | The log grows by the pass body, then `resolve(pass)`. |
| Rendering.Renderer.RenderAtlas | pathfinder/src/renderer.cpp:78-119 | Nothing happens without buffers. Otherwise the log grows by exactly `FrameEvents`, and `FrameStrategyCalls` counts its strategy calls. |
| Rendering.Renderer.UploadPathColors | pathfinder/src/renderer.cpp:243-257 | Exactly `n` slots remain. Only null slots get new textures, in slot order, and every slot gets one upload. Nothing else changes. |
| Rendering.Renderer.UploadPathTransforms | pathfinder/src/renderer.cpp:260-278 | Exactly `n` slots remain, all filled. Only empty slots get a new pair, and every slot gets `st` then `ext` uploads. Nothing else changes. |

## Left out

- GL itself is left out. Draws, texture, buffer and framebuffer creation, attribute pointers, and blend, depth, cull and scissor state are abstract log events or omitted.
- Buffer-texture internals are left out. A `PathfinderBufferTexture` is a name; an upload is recorded by its length.
- Float math is left out: transforms, `setTransform*` uniforms, texture scale, the hints uniform, the embolden amount's value, and the background and foreground colour values. A float uniform is recorded as `FloatPayload`. Colours appear only as constant values.
- Rendering.Renderer.DirectlyRenderObject: the program lookups, uniform setup and texture binds inside `directlyRenderObject` are not emitted. This covers `setTransform*`, `setFramebufferSizeUniform`, `setHintsUniform`, `setPathColorsUniform`, `setEmboldenAmountUniform` and the `st`/`ext` binds. The vertex-array setup helpers `initImplicitCoverInteriorVAO` and `initImplicitCoverCurveVAO` are not emitted either. The setters themselves are modelled as separate methods.
- Rendering.Renderer.DirectlyRenderObject: the instance range and instancing choice are parameters. The frame passes `instanceRangeForObject` and `getPathIDsAreInstanced`, so their constant answers do not leave dead branches in the method.
- Rendering.Renderer.BindGammaLUT: `glActiveTexture` is folded into the texture bind, and the LUT textures come from the render context as parameters. The same holds for `BindAreaLUT`.
- Rendering.Renderer: strategy calls are recorded, not executed. `SetAntialiasingOptions`, `Init`, `AttachMeshes` and `RenderAtlas` append one `Invoke` event per call into the strategy. Those calls take no GL names in the model and change no strategy state. Which strategy a renderer holds is decided by `createAAStrategy`, which is pure virtual in renderer.h. The renderer therefore sees its strategy only through the answers of `getDirectRenderingMode` and `getPassCount` (`FrameSpec.StrategyProfile`), and any answers are allowed, colour mode included. `FrameSpec.XcaaProfile` gives the answers of the XCAA strategies. What the XCAA strategies do for each call is modelled on their own classes, in `XcaaStrategies` and `AdaptiveStrategy`. The renderer's log and a strategy's log are therefore not joined into one run. In a real run the strategy's `init`, `attachMeshes` and `setFramebufferSize` create GL objects first, so `Init`'s two vertex arrays get names after them. The model's `old(gl.names) + 1` and `+ 2` count only the renderer's own creations.
- XcaaStrategies.FramebufferSizeStep: sizes are whole pixels. `getDestAllocatedSize` returns a float vector, and `setFramebufferSize` truncates the float products `dest.x * scale.x` and `dest.y * scale.y` to integers. The model takes an integer destination size and an exact integer product (`Geometry.Scale`), so that truncation is not modelled. The same holds for `XcaaStrategies.Host.destAllocatedSize`.
- render-context.h is not part of this model beyond the LUT handles passed in. text.cpp is not part of this model: it is font loading and glyph geometry.
- The base class `AntialiasingStrategy` (aa-strategy.h and aa-strategy.cpp) is not part of this model:
  - the pass count it reports is the `basePassCount` parameter of `FrameSpec.XcaaProfile`;
  - the entry points the XCAA strategies inherit from it (`init`, `prepareForRendering`, `prepareForDirectRendering`, `prepareToRenderObject`, `resolve`) are one `Inherited` event each.
- `XCAAStrategy::finishDirectlyRenderingObject` has an empty body, so it and the adaptive forwarder of it have no modelled effect.
- `getTransform`, `getTransformType`, `getWorldTransformForPass`, `setAAUniforms`, the depth and blend helpers, and MCAA's `initVAOForObject` byte offsets are left out. They are float or GL-state code.
- Rendering.Renderer.UploadPathColors: requires `0 <= objectCount`. A negative count would make `resize` fail, and the caller's colour data is given for every object.
- Rendering.Renderer.UploadPathTransforms: requires `0 <= objectCount` for the same reason. C++ leaves unspecified whether the new `st` or `ext` texture is constructed first; the model gives `st` the lower name.
- RendererState.CreatePathTransformBuffers: 32-bit overflow of `pathCount * 4` is not modelled, and counts below -1 are excluded.
- XcaaStrategies.AntialiasStep: `attachMeshes` clears `pathBoundsBufferTextures` and `antialiasObject` then indexes it. The model requires the slot to exist instead of modelling the out-of-bounds access.
- Rendering.Renderer.RenderAtlas: requires every visited object to have its mesh entry and a readable interior table when the strategy renders directly. This matches `directlyRenderObject` reading without bound checks.
- The renderer.h constants `MAX_PATHS`, `MAX_VERTICES`, `TIME_INTERVAL_DELAY` and the B-loop Blinn layout constants are not modelled. No modelled function reads them.
- Building `PathfinderPackedMeshBuffers` from the CPU meshes (meshes.cpp) is reduced to keeping the two per-path tables.
- The `Renderer` destructor and `ShaderManager` and `PathfinderShaderProgram` destructors are left out. They only delete GL objects.
- Shader sources, compile and link logs, `stderr` and `malloc` are left out. Compile and link outcomes and uniform locations come from an oracle.
- ShaderLoader.ShaderProgram.GetUniform: the debug `assert` on a missing uniform is not modelled; the model returns the stored -1, as a release build does. The same holds for `GetAttribute`.
