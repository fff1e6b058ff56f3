/**
 * The `Renderer` of renderer.cpp: it owns the attached meshes, the
 * antialiasing strategy, the per-object path-colour and path-transform
 * buffer textures and the two implicit-cover vertex arrays, and drives a
 * frame by calling into its strategy in a fixed order. Every method is proved
 * against the pure trace functions of `FrameSpec` or states its new state
 * outright.
 */
module Rendering {
  import opened Geometry
  import opened Trace
  import MeshIndex
  import opened RendererState
  import opened XcaaStrategies
  import opened FrameSpec
  import ShaderLoader

  datatype GammaCorrectionMode = GcmOff | GcmOn

  /** What the renderer asks its subclass for while it draws a frame. */
  datatype Target = Target(objectCount: int, atlasFramebuffer: Handle, atlasAllocatedSize: Size)

  /** `vector::resize(n, nullptr)`: cut to `n` slots, or pad with `empty` slots up to `n`. */
  function Resized<T>(slots: seq<T>, n: nat, empty: T): (r: seq<T>)
    ensures |r| == n
    ensures forall i :: 0 <= i < n ==> r[i] == if i < |slots| then slots[i] else empty
  {
    if n <= |slots| then slots[..n] else slots + seq(n - |slots|, _ => empty)
  }

  /** How many of the first `n` slots of `slots` are null (0). */
  function NullSlots(slots: seq<Handle>, n: nat): nat
    requires n <= |slots|
  {
    if n == 0 then 0 else NullSlots(slots, n - 1) + if slots[n - 1] == 0 then 1 else 0
  }

  /** How many of the first `n` slots of `slots` are empty. */
  function EmptySlots<T>(slots: seq<Option<T>>, n: nat): nat
    requires n <= |slots|
  {
    if n == 0 then 0 else EmptySlots(slots, n - 1) + if slots[n - 1].None? then 1 else 0
  }

  lemma {:induction false} NullSlotsMonotone(s: seq<Handle>, a: nat, b: nat)
    requires a <= b <= |s|
    ensures NullSlots(s, a) <= NullSlots(s, b)
    decreases b
  {
    if a < b {
      NullSlotsMonotone(s, a, b - 1);
    }
  }

  /**
   * The textures `uploadPathColors` creates are pairwise distinct: a later
   * null slot gets a strictly larger name than an earlier one, and none
   * exceeds the name count after the fill.
   */
  lemma NewColorTexturesDistinct(prior: seq<Handle>, i: nat, j: nat)
    requires i < j < |prior| && prior[j] == 0
    ensures 0 < NullSlots(prior, i + 1) + 1 <= NullSlots(prior, j + 1) <= NullSlots(prior, |prior|)
  {
    NullSlotsMonotone(prior, i + 1, j);
    NullSlotsMonotone(prior, j + 1, |prior|);
  }

  lemma {:induction false} EmptySlotsMonotone<T>(s: seq<Option<T>>, a: nat, b: nat)
    requires a <= b <= |s|
    ensures EmptySlots(s, a) <= EmptySlots(s, b)
    decreases b
  {
    if a < b {
      EmptySlotsMonotone(s, a, b - 1);
    }
  }

  /**
   * The texture pairs `uploadPathTransforms` creates are disjoint: a later
   * empty slot's pair is numbered strictly above an earlier one's, and none
   * exceeds the name count after the fill.
   */
  lemma NewTransformTexturesDistinct<T>(prior: seq<Option<T>>, i: nat, j: nat)
    requires i < j < |prior| && prior[j].None?
    ensures 0 < EmptySlots(prior, i + 1) + 1 <= EmptySlots(prior, j + 1) <= EmptySlots(prior, |prior|)
  {
    EmptySlotsMonotone(prior, i + 1, j);
    EmptySlotsMonotone(prior, j + 1, |prior|);
  }

  /** The uploads of `uploadPathColors`: object `i`'s colours into slot `i`, in slot order. */
  function ColorUploads(slots: seq<Handle>, pathColors: seq<seq<bv8>>): seq<Call>
    requires |slots| <= |pathColors|
  {
    seq(|slots|, i requires 0 <= i < |slots| => Upload(slots[i], |pathColors[i]|))
  }

  /**
   * The uploads of `uploadPathTransforms`: for each object in slot order, its
   * `st` data into the slot's `st` texture and then its `ext` data into the
   * slot's `ext` texture.
   */
  function TransformUploads(slots: seq<Option<PathTransformBuffers<Handle>>>,
                            pathTransforms: seq<PathTransformBuffers<seq<real>>>): seq<Call>
    requires |slots| <= |pathTransforms|
    requires forall i :: 0 <= i < |slots| ==> slots[i].Some?
  {
    seq(2 * |slots|, k requires 0 <= k < 2 * |slots| =>
      if k % 2 == 0 then Upload(slots[k / 2].value.st, |pathTransforms[k / 2].st|)
      else Upload(slots[k / 2].value.ext, |pathTransforms[k / 2].ext|))
  }

  /** One more filled slot appends its `st` and `ext` uploads. */
  lemma TransformUploadsStep(slots: seq<Option<PathTransformBuffers<Handle>>>,
                             pathTransforms: seq<PathTransformBuffers<seq<real>>>, k: nat)
    requires k < |slots| <= |pathTransforms|
    requires forall i :: 0 <= i <= k ==> slots[i].Some?
    ensures TransformUploads(slots[..k + 1], pathTransforms) == TransformUploads(slots[..k], pathTransforms)
      + [Upload(slots[k].value.st, |pathTransforms[k].st|), Upload(slots[k].value.ext, |pathTransforms[k].ext|)]
  {
  }

  /**
   * The slot loop of `uploadPathColors` over the resized slots `prior`: a
   * null slot gets the next new name, so the new textures are numbered in slot
   * order; every slot then receives its object's colours.
   */
  method FillColorSlots(gl: CommandStream, prior: seq<Handle>, pathColors: seq<seq<bv8>>) returns (slots: seq<Handle>)
    requires |prior| <= |pathColors|
    modifies gl
    ensures |slots| == |prior|
    ensures forall i :: 0 <= i < |prior| && prior[i] != 0 ==> slots[i] == prior[i]
    ensures forall i :: 0 <= i < |prior| && prior[i] == 0 ==> slots[i] == old(gl.names) + NullSlots(prior, i + 1)
    ensures gl.names == old(gl.names) + NullSlots(prior, |prior|)
    ensures gl.log == old(gl.log) + ColorUploads(slots, pathColors)
  {
    slots := prior;
    var objectIndex := 0;
    while objectIndex < |prior|
      invariant 0 <= objectIndex <= |prior| && |slots| == |prior|
      invariant forall i :: objectIndex <= i < |prior| ==> slots[i] == prior[i]
      invariant forall i :: 0 <= i < objectIndex && prior[i] != 0 ==> slots[i] == prior[i]
      invariant forall i :: 0 <= i < objectIndex && prior[i] == 0 ==>
        slots[i] == old(gl.names) + NullSlots(prior, i + 1)
      invariant gl.names == old(gl.names) + NullSlots(prior, objectIndex)
      invariant gl.log == old(gl.log) + ColorUploads(slots[..objectIndex], pathColors)
    {
      var texture := slots[objectIndex];
      if texture == 0 {
        texture := gl.Create();
        slots := slots[objectIndex := texture];
      }
      gl.Emit(Upload(texture, |pathColors[objectIndex]|));
      objectIndex := objectIndex + 1;
    }
  }

  /** One slot of `uploadPathTransforms`: an empty slot gets two new names, `st` first; both are then uploaded. */
  method FillTransformSlot(gl: CommandStream, textures: Option<PathTransformBuffers<Handle>>,
                           data: PathTransformBuffers<seq<real>>) returns (filled: PathTransformBuffers<Handle>)
    modifies gl
    ensures textures.Some? ==> filled == textures.value && gl.names == old(gl.names)
    ensures textures.None? ==>
      filled == PathTransformBuffers(old(gl.names) + 1, old(gl.names) + 2) && gl.names == old(gl.names) + 2
    ensures gl.log == old(gl.log) + [Upload(filled.st, |data.st|), Upload(filled.ext, |data.ext|)]
  {
    if textures.None? {
      var st := gl.Create();
      var ext := gl.Create();
      filled := PathTransformBuffers(st, ext);
    } else {
      filled := textures.value;
    }
    gl.EmitAll([Upload(filled.st, |data.st|), Upload(filled.ext, |data.ext|)]);
  }

  /**
   * The slot loop of `uploadPathTransforms` over the resized slots `prior`:
   * an empty slot gets the next two new names, `st` first; every slot then
   * receives its object's `st` and `ext` data.
   */
  method FillTransformSlots(gl: CommandStream, prior: seq<Option<PathTransformBuffers<Handle>>>,
                            pathTransforms: seq<PathTransformBuffers<seq<real>>>)
    returns (slots: seq<Option<PathTransformBuffers<Handle>>>)
    requires |prior| <= |pathTransforms|
    modifies gl
    ensures |slots| == |prior|
    ensures forall i :: 0 <= i < |prior| ==> slots[i].Some?
    ensures forall i :: 0 <= i < |prior| && prior[i].Some? ==> slots[i] == prior[i]
    ensures forall i :: 0 <= i < |prior| && prior[i].None? ==>
      slots[i].value.st == old(gl.names) + 2 * EmptySlots(prior, i + 1) - 1
      && slots[i].value.ext == old(gl.names) + 2 * EmptySlots(prior, i + 1)
    ensures gl.names == old(gl.names) + 2 * EmptySlots(prior, |prior|)
    ensures gl.log == old(gl.log) + TransformUploads(slots, pathTransforms)
  {
    slots := prior;
    var objectIndex := 0;
    while objectIndex < |prior|
      invariant 0 <= objectIndex <= |prior| && |slots| == |prior|
      invariant forall i :: objectIndex <= i < |prior| ==> slots[i] == prior[i]
      invariant forall i :: 0 <= i < objectIndex ==> slots[i].Some?
      invariant forall i :: 0 <= i < objectIndex && prior[i].Some? ==> slots[i] == prior[i]
      invariant forall i :: 0 <= i < objectIndex && prior[i].None? ==>
        slots[i].value.st == old(gl.names) + 2 * EmptySlots(prior, i + 1) - 1
        && slots[i].value.ext == old(gl.names) + 2 * EmptySlots(prior, i + 1)
      invariant gl.names == old(gl.names) + 2 * EmptySlots(prior, objectIndex)
      invariant gl.log == old(gl.log) + TransformUploads(slots[..objectIndex], pathTransforms)
    {
      var filled := FillTransformSlot(gl, slots[objectIndex], pathTransforms[objectIndex]);
      slots := slots[objectIndex := Some(filled)];
      TransformUploadsStep(slots, pathTransforms, objectIndex);
      objectIndex := objectIndex + 1;
    }
  }

  /** The strategy calls of `setAntialiasingOptions`: `init`, `attachMeshes` if meshes are held, `setFramebufferSize`. */
  function OptionsEvents(haveMeshes: bool): (r: seq<Call>)
    ensures |r| == if haveMeshes then 3 else 2
    ensures r[0] == Invoke(StrategyOp.Init) && r[|r| - 1] == Invoke(StrategyOp.SetFramebufferSize)
    ensures Invoke(StrategyOp.AttachMeshes) in r <==> haveMeshes
  {
    [Invoke(StrategyOp.Init)]
    + (if haveMeshes then [Invoke(StrategyOp.AttachMeshes)] else [])
    + [Invoke(StrategyOp.SetFramebufferSize)]
  }

  /**
   * The calls of a uniform setter guarded by `hasUniform`: one `glUniform*`
   * at the program's location for `u` when the program has that uniform,
   * nothing otherwise; so no call ever targets location -1.
   */
  function GuardedUniform(program: ShaderLoader.ShaderProgram, u: ShaderLoader.UniformName, value: UniformValue): (r: seq<Call>)
    requires program.Valid()
    reads program, program.uniforms
    ensures r == [] <==> !program.HasUniform(ShaderLoader.UniformId(u))
    ensures forall k :: 0 <= k < |r| ==> r[k].SetUniform? && r[k].location != -1 && r[k].value == value
  {
    var location := program.GetUniform(ShaderLoader.UniformId(u));
    if location != -1 then [SetUniform(location, value)] else []
  }

  /**
   * The calls that bind a lookup-table texture to a sampler uniform: bind the
   * texture on the unit, then point the sampler at the unit; nothing when the
   * program has no such sampler.
   */
  function SamplerBinding(program: ShaderLoader.ShaderProgram, u: ShaderLoader.UniformName, texture: Handle, textureUnit: nat): (r: seq<Call>)
    requires program.Valid()
    reads program, program.uniforms
    ensures r == [] <==> !program.HasUniform(ShaderLoader.UniformId(u))
    ensures r != [] ==> r == [BindTexture(texture)] + GuardedUniform(program, u, Ints([textureUnit]))
  {
    if program.HasUniform(ShaderLoader.UniformId(u)) then
      [BindTexture(texture), SetUniform(program.GetUniform(ShaderLoader.UniformId(u)), Ints([textureUnit]))]
    else []
  }

  class Renderer {
    var gammaCorrectionMode: GammaCorrectionMode
    var strategy: Option<StrategyProfile>
    var meshes: seq<PackedMeshes>
    var meshBuffers: seq<PackedMeshBuffers>
    var pathColorsBufferTextures: seq<Handle>
    var pathTransformBufferTextures: seq<Option<PathTransformBuffers<Handle>>>
    var implicitCoverInteriorVAO: Handle
    var implicitCoverCurveVAO: Handle

    /** The state one frame depends on. */
    function FrameOf(target: Target): Frame
      requires strategy.Some?
      reads this
    {
      Frame(strategy.value, meshBuffers, meshes, implicitCoverInteriorVAO, implicitCoverCurveVAO,
            target.objectCount, target.atlasFramebuffer, target.atlasAllocatedSize)
    }

    /** A new renderer: gamma correction on, no strategy, no meshes, no textures, no vertex arrays. */
    constructor()
      ensures gammaCorrectionMode == GcmOn && strategy == None
      ensures meshes == [] && meshBuffers == []
      ensures pathColorsBufferTextures == [] && pathTransformBufferTextures == []
      ensures implicitCoverInteriorVAO == 0 && implicitCoverCurveVAO == 0
    {
      gammaCorrectionMode := GcmOn;
      strategy := None;
      meshes := [];
      meshBuffers := [];
      pathColorsBufferTextures := [];
      pathTransformBufferTextures := [];
      implicitCoverInteriorVAO := 0;
      implicitCoverCurveVAO := 0;
    }

    /**
     * `setAntialiasingOptions`: the new strategy replaces the old one, then
     * is initialised, attached to the meshes if any are held, and told the
     * framebuffer size, in that order.
     */
    method SetAntialiasingOptions(gl: CommandStream, newStrategy: StrategyProfile, gammaCorrection: GammaCorrectionMode)
      modifies this, gl
      ensures strategy == Some(newStrategy) && gammaCorrectionMode == gammaCorrection
      ensures meshes == old(meshes) && meshBuffers == old(meshBuffers)
      ensures pathColorsBufferTextures == old(pathColorsBufferTextures)
      ensures pathTransformBufferTextures == old(pathTransformBufferTextures)
      ensures implicitCoverInteriorVAO == old(implicitCoverInteriorVAO)
      ensures implicitCoverCurveVAO == old(implicitCoverCurveVAO)
      ensures gl.log == old(gl.log) + OptionsEvents(|meshes| != 0) && gl.names == old(gl.names)
    {
      gammaCorrectionMode := gammaCorrection;
      strategy := Some(newStrategy);
      gl.Emit(Invoke(StrategyOp.Init));
      if |meshes| != 0 {
        gl.Emit(Invoke(StrategyOp.AttachMeshes));
      }
      gl.Emit(Invoke(StrategyOp.SetFramebufferSize));
    }

    /** `init`: the antialiasing options, then the two implicit-cover vertex arrays; always succeeds. */
    method Init(gl: CommandStream, newStrategy: StrategyProfile, gammaCorrection: GammaCorrectionMode) returns (ok: bool)
      modifies this, gl
      ensures ok
      ensures strategy == Some(newStrategy) && gammaCorrectionMode == gammaCorrection
      ensures meshes == old(meshes) && meshBuffers == old(meshBuffers)
      ensures pathColorsBufferTextures == old(pathColorsBufferTextures)
      ensures pathTransformBufferTextures == old(pathTransformBufferTextures)
      ensures implicitCoverInteriorVAO == old(gl.names) + 1 && implicitCoverCurveVAO == old(gl.names) + 2
      ensures gl.log == old(gl.log) + OptionsEvents(|meshes| != 0) && gl.names == old(gl.names) + 2
    {
      SetAntialiasingOptions(gl, newStrategy, gammaCorrection);
      implicitCoverInteriorVAO := gl.Create();
      implicitCoverCurveVAO := gl.Create();
      ok := true;
    }

    /**
     * `attachMeshes`: keeps the meshes, rebuilds one buffer set per mesh in
     * order, then lets the strategy attach.
     */
    method AttachMeshes(gl: CommandStream, newMeshes: seq<PackedMeshes>)
      requires strategy.Some?
      modifies this, gl
      ensures meshes == newMeshes
      ensures |meshBuffers| == |newMeshes|
      ensures forall i :: 0 <= i < |newMeshes| ==> meshBuffers[i] == BuffersFor(newMeshes[i])
      ensures MeshesAttached(meshBuffers, meshes) <==> |newMeshes| > 0
      ensures strategy == old(strategy) && gammaCorrectionMode == old(gammaCorrectionMode)
      ensures pathColorsBufferTextures == old(pathColorsBufferTextures)
      ensures pathTransformBufferTextures == old(pathTransformBufferTextures)
      ensures implicitCoverInteriorVAO == old(implicitCoverInteriorVAO)
      ensures implicitCoverCurveVAO == old(implicitCoverCurveVAO)
      ensures gl.log == old(gl.log) + [Invoke(StrategyOp.AttachMeshes)] && gl.names == old(gl.names)
    {
      meshes := newMeshes;
      meshBuffers := [];
      var i := 0;
      while i < |newMeshes|
        modifies this
        invariant 0 <= i <= |newMeshes|
        invariant |meshBuffers| == i
        invariant forall j :: 0 <= j < i ==> meshBuffers[j] == BuffersFor(newMeshes[j])
        invariant meshes == newMeshes && strategy == old(strategy) && gammaCorrectionMode == old(gammaCorrectionMode)
        invariant pathColorsBufferTextures == old(pathColorsBufferTextures)
        invariant pathTransformBufferTextures == old(pathTransformBufferTextures)
        invariant implicitCoverInteriorVAO == old(implicitCoverInteriorVAO)
        invariant implicitCoverCurveVAO == old(implicitCoverCurveVAO)
      {
        meshBuffers := meshBuffers + [BuffersFor(newMeshes[i])];
        i := i + 1;
      }
      gl.Emit(Invoke(StrategyOp.AttachMeshes));
    }

    /** `setFramebufferSizeUniform`: the atlas's allocated size, if the program has `uFramebufferSize`. */
    method SetFramebufferSizeUniform(gl: CommandStream, program: ShaderLoader.ShaderProgram, target: Target)
      requires program.Valid()
      modifies gl
      ensures gl.log == old(gl.log) + GuardedUniform(program, ShaderLoader.UFramebufferSize,
                                                     Ints([target.atlasAllocatedSize.x, target.atlasAllocatedSize.y]))
      ensures gl.names == old(gl.names)
    {
      var id := ShaderLoader.UniformId(ShaderLoader.UFramebufferSize);
      if program.HasUniform(id) {
        var destAllocatedSize := target.atlasAllocatedSize;
        gl.Emit(SetUniform(program.GetUniform(id), Ints([destAllocatedSize.x, destAllocatedSize.y])));
      } else {
        assert GuardedUniform(program, ShaderLoader.UFramebufferSize,
                              Ints([target.atlasAllocatedSize.x, target.atlasAllocatedSize.y])) == [];
      }
    }

    /** `setEmboldenAmountUniform`: the embolden amount, if the program has `uEmboldenAmount`. */
    method SetEmboldenAmountUniform(gl: CommandStream, objectIndex: int, program: ShaderLoader.ShaderProgram)
      requires program.Valid()
      modifies gl
      ensures gl.log == old(gl.log) + GuardedUniform(program, ShaderLoader.UEmboldenAmount, FloatPayload)
      ensures gl.names == old(gl.names)
    {
      var id := ShaderLoader.UniformId(ShaderLoader.UEmboldenAmount);
      if !program.HasUniform(id) {
        assert GuardedUniform(program, ShaderLoader.UEmboldenAmount, FloatPayload) == [];
        return;
      }
      gl.Emit(SetUniform(program.GetUniform(id), FloatPayload));
    }

    /**
     * `bindGammaLUT`: the gamma lookup table on `textureUnit` if the program
     * samples `uGammaLUT`, then the background colour if it has `uBGColor`.
     */
    method BindGammaLUT(gl: CommandStream, gammaLUT: Handle, textureUnit: nat, program: ShaderLoader.ShaderProgram)
      requires program.Valid()
      modifies gl
      ensures gl.log == old(gl.log) + SamplerBinding(program, ShaderLoader.UGammaLUT, gammaLUT, textureUnit)
                                    + GuardedUniform(program, ShaderLoader.UBGColor, FloatPayload)
      ensures gl.names == old(gl.names)
    {
      var lutId := ShaderLoader.UniformId(ShaderLoader.UGammaLUT);
      if program.HasUniform(lutId) {
        gl.Emit(BindTexture(gammaLUT));
        gl.Emit(SetUniform(program.GetUniform(lutId), Ints([textureUnit])));
      } else {
        assert SamplerBinding(program, ShaderLoader.UGammaLUT, gammaLUT, textureUnit) == [];
      }
      ghost var afterLUT := gl.log;
      var colorId := ShaderLoader.UniformId(ShaderLoader.UBGColor);
      if program.HasUniform(colorId) {
        gl.Emit(SetUniform(program.GetUniform(colorId), FloatPayload));
      } else {
        assert GuardedUniform(program, ShaderLoader.UBGColor, FloatPayload) == [];
      }
      assert gl.log == afterLUT + GuardedUniform(program, ShaderLoader.UBGColor, FloatPayload);
    }

    /** `bindAreaLUT`: the area lookup table on `textureUnit`, if the program samples `uAreaLUT`. */
    method BindAreaLUT(gl: CommandStream, areaLUT: Handle, textureUnit: nat, program: ShaderLoader.ShaderProgram)
      requires program.Valid()
      modifies gl
      ensures gl.log == old(gl.log) + SamplerBinding(program, ShaderLoader.UAreaLUT, areaLUT, textureUnit)
      ensures gl.names == old(gl.names)
    {
      var id := ShaderLoader.UniformId(ShaderLoader.UAreaLUT);
      if program.HasUniform(id) {
        gl.Emit(BindTexture(areaLUT));
        gl.Emit(SetUniform(program.GetUniform(id), Ints([textureUnit])));
      } else {
        assert SamplerBinding(program, ShaderLoader.UAreaLUT, areaLUT, textureUnit) == [];
      }
    }

    /** `clearDestFramebuffer`: bind the atlas, cover it with the viewport, clear it to the background colour. */
    method ClearDestFramebuffer(gl: CommandStream, target: Target)
      requires strategy.Some?
      modifies gl
      ensures gl.log == old(gl.log) + ClearDestEvents(FrameOf(target)) && gl.names == old(gl.names)
    {
      gl.Emit(BindFramebuffer(target.atlasFramebuffer));
      gl.Emit(Viewport(target.atlasAllocatedSize));
      gl.Emit(ClearColorAndDepth(BG_COLOR));
    }

    /**
     * `directlyRenderObject` for the given instance range and instancing
     * choice (the defaults are `instanceRangeForObject` and
     * `getPathIDsAreInstanced`).
     */
    method DirectlyRenderObject(gl: CommandStream, target: Target, pass: int, objectIndex: int,
                                instanceRange: Range, instanced: bool)
      requires strategy.Some? && DirectDefined(FrameOf(target), objectIndex)
      modifies gl
      ensures gl.log == old(gl.log) + DirectEvents(FrameOf(target), objectIndex, instanceRange, instanced)
      ensures gl.names == old(gl.names)
    {
      ghost var fr := FrameOf(target);
      var calls := [];
      if |meshBuffers| > 0 && |meshes| > 0 && !instanceRange.IsEmpty() {
        var draws := DirectDraws(FrameOf(target), InteriorRange(FrameOf(target), objectIndex),
                                 CoverRange(FrameOf(target), objectIndex), instanceRange, instanced);
        calls := draws + [Invoke(FinishDirectlyRenderingObject(objectIndex))];
      }
      assert calls == DirectEvents(fr, objectIndex, instanceRange, instanced);
      gl.EmitAll(calls);
    }

    /** One iteration of `renderAtlas`'s object loop. */
    method RenderObject(gl: CommandStream, target: Target, pass: int, objectIndex: int)
      requires strategy.Some?
      requires Mode(FrameOf(target)) != DrmNone ==> DirectDefined(FrameOf(target), objectIndex)
      modifies gl
      ensures gl.log == old(gl.log) + ObjectEvents(FrameOf(target), objectIndex) && gl.names == old(gl.names)
    {
      ghost var fr := FrameOf(target);
      if strategy.value.directMode != DrmNone {
        var prepare := [Invoke(PrepareToRenderObject(objectIndex)), ClearColorAndDepth(ClearColorForObject(objectIndex))];
        gl.EmitAll(prepare);
        DirectlyRenderObject(gl, target, pass, objectIndex, InstanceRangeForObject(objectIndex), PathIDsAreInstanced());
        AppendAssociates(old(gl.log), prepare, DirectEvents(fr, objectIndex, InstanceRangeForObject(objectIndex), PathIDsAreInstanced()));
      } else {
        assert DirectPart(fr, objectIndex) == [];
      }
      ghost var direct := gl.log;
      assert direct == old(gl.log) + DirectPart(fr, objectIndex);
      var antialias := [Invoke(AntialiasObject(objectIndex)), Invoke(FinishAntialiasingObject(objectIndex))];
      var resolve := [Invoke(ResolveAAForObject(objectIndex))];
      gl.EmitAll(antialias + resolve);
      AppendAssociates(DirectPart(fr, objectIndex), antialias, resolve);
      AppendAssociates(old(gl.log), DirectPart(fr, objectIndex), antialias + resolve);
    }

    /** One iteration of `renderAtlas`'s pass loop. */
    method RenderPass(gl: CommandStream, target: Target, pass: int)
      requires strategy.Some? && FrameDefined(FrameOf(target))
      modifies gl
      ensures gl.log == old(gl.log) + (PassBody(FrameOf(target)) + [Invoke(Resolve(pass))])
      ensures gl.names == old(gl.names)
    {
      ghost var fr := FrameOf(target);
      if strategy.value.directMode != DrmNone {
        gl.Emit(Invoke(PrepareForDirectRendering));
      }
      ghost var prefix := gl.log;
      var objectCount := target.objectCount;
      var objectIndex := 0;
      while objectIndex < objectCount
        invariant 0 <= objectIndex <= Objects(fr)
        invariant gl.log == prefix + ObjectLoop(fr, objectIndex) && gl.names == old(gl.names)
      {
        RenderObject(gl, target, pass, objectIndex);
        AppendAssociates(prefix, ObjectLoop(fr, objectIndex), ObjectEvents(fr, objectIndex));
        objectIndex := objectIndex + 1;
      }
      AppendAssociates(old(gl.log), prefix[|old(gl.log)|..], ObjectLoop(fr, Objects(fr)));
      gl.Emit(Invoke(Resolve(pass)));
    }

    /**
     * `renderAtlas`: nothing without mesh buffers; otherwise the trace
     * `FrameEvents` of the renderer's state, whose strategy calls
     * `FrameStrategyCalls` counts.
     */
    method RenderAtlas(gl: CommandStream, target: Target)
      requires |meshBuffers| > 0 ==> strategy.Some? && FrameDefined(FrameOf(target))
      modifies gl
      ensures |meshBuffers| == 0 ==> gl.log == old(gl.log)
      ensures |meshBuffers| > 0 ==> gl.log == old(gl.log) + FrameEvents(FrameOf(target))
      ensures gl.names == old(gl.names)
    {
      if |meshBuffers| == 0 {
        return;
      }
      ghost var fr := FrameOf(target);
      ClearDestFramebuffer(gl, target);
      gl.Emit(Invoke(PrepareForRendering));
      ghost var head := gl.log;
      var passCount := strategy.value.passCount;
      var pass := 0;
      while pass < passCount
        invariant 0 <= pass <= passCount
        invariant gl.log == head + PassLoop(PassBody(fr), pass) && gl.names == old(gl.names)
      {
        RenderPass(gl, target, pass);
        AppendAssociates(head, PassLoop(PassBody(fr), pass), PassBody(fr) + [Invoke(Resolve(pass))]);
        pass := pass + 1;
      }
    }

    /**
     * `uploadPathColors`: exactly `objectCount` slots remain; a null slot gets
     * a new buffer texture, an existing one is reused, and every slot then
     * receives its object's colours.
     */
    method UploadPathColors(gl: CommandStream, objectCount: int, pathColors: seq<seq<bv8>>)
      requires 0 <= objectCount <= |pathColors|
      modifies this, gl
      ensures |pathColorsBufferTextures| == objectCount
      ensures var prior := Resized(old(pathColorsBufferTextures), objectCount, 0);
        && (forall i :: 0 <= i < objectCount && prior[i] != 0 ==> pathColorsBufferTextures[i] == prior[i])
        && (forall i :: 0 <= i < objectCount && prior[i] == 0 ==>
              pathColorsBufferTextures[i] == old(gl.names) + NullSlots(prior, i + 1))
        && gl.names == old(gl.names) + NullSlots(prior, objectCount)
      ensures gl.log == old(gl.log) + ColorUploads(pathColorsBufferTextures, pathColors)
      ensures strategy == old(strategy) && meshes == old(meshes) && meshBuffers == old(meshBuffers)
      ensures pathTransformBufferTextures == old(pathTransformBufferTextures)
      ensures gammaCorrectionMode == old(gammaCorrectionMode)
      ensures implicitCoverInteriorVAO == old(implicitCoverInteriorVAO)
      ensures implicitCoverCurveVAO == old(implicitCoverCurveVAO)
    {
      var slots := FillColorSlots(gl, Resized(pathColorsBufferTextures, objectCount, 0), pathColors);
      pathColorsBufferTextures := slots;
    }

    /**
     * `uploadPathTransforms`: exactly `objectCount` slots remain; an empty
     * slot gets a new pair of buffer textures, an existing pair is reused, and
     * every slot then receives its object's `st` and `ext` data.
     */
    method UploadPathTransforms(gl: CommandStream, objectCount: int, pathTransforms: seq<PathTransformBuffers<seq<real>>>)
      requires 0 <= objectCount <= |pathTransforms|
      modifies this, gl
      ensures |pathTransformBufferTextures| == objectCount
      ensures forall i :: 0 <= i < objectCount ==> pathTransformBufferTextures[i].Some?
      ensures var prior := Resized(old(pathTransformBufferTextures), objectCount, None);
        && (forall i :: 0 <= i < objectCount && prior[i].Some? ==> pathTransformBufferTextures[i] == prior[i])
        && (forall i :: 0 <= i < objectCount && prior[i].None? ==>
              pathTransformBufferTextures[i].value.st == old(gl.names) + 2 * EmptySlots(prior, i + 1) - 1
              && pathTransformBufferTextures[i].value.ext == old(gl.names) + 2 * EmptySlots(prior, i + 1))
        && gl.names == old(gl.names) + 2 * EmptySlots(prior, objectCount)
      ensures gl.log == old(gl.log) + TransformUploads(pathTransformBufferTextures, pathTransforms)
      ensures strategy == old(strategy) && meshes == old(meshes) && meshBuffers == old(meshBuffers)
      ensures pathColorsBufferTextures == old(pathColorsBufferTextures)
      ensures gammaCorrectionMode == old(gammaCorrectionMode)
      ensures implicitCoverInteriorVAO == old(implicitCoverInteriorVAO)
      ensures implicitCoverCurveVAO == old(implicitCoverCurveVAO)
    {
      var slots := FillTransformSlots(gl, Resized(pathTransformBufferTextures, objectCount, None), pathTransforms);
      pathTransformBufferTextures := slots;
    }
  }
}
