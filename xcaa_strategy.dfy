/**
 * The XCAA antialiasing strategies of xcaa-strategy.cpp: the mesh-coverage
 * strategy (MCAA), the stencil strategy (StencilAAA) and the adaptive strategy
 * that owns one of each and forwards every per-pass and per-object call to
 * the one the renderer currently needs.
 *
 * Each concrete strategy is a `XcaaStrategy` object whose fields are the GL
 * names and sizes the source keeps. Every method is specified by a pure step
 * function over a snapshot of those fields (`Fields`): the step gives the new
 * fields, the commands appended to the log and how many GL names were
 * created. The adaptive strategy's contracts are stated with the same step
 * functions, applied to whichever inner strategy it picks.
 */
module XcaaStrategies {
  import opened Geometry
  import opened Trace
  import MeshIndex
  import opened RendererState
  import ShaderLoader

  // ---------------------------------------------------------------------------
  // Property tables.

  datatype DirectRenderingMode = DrmNone | DrmConservative | DrmColor

  /** The XCAA strategies this model covers: MCAA or StencilAAA alone, or the adaptive pair. */
  datatype StrategyKind = Single(variant: XcaaVariant) | Adaptive

  /** `getDirectRenderingMode`: only MCAA draws directly, and conservatively. */
  function DirectRenderingModeOf(k: StrategyKind): (m: DirectRenderingMode)
    ensures m != DrmColor
    ensures m == DrmConservative <==> k == Single(Mcaa)
  {
    match k
    case Single(Mcaa) => DrmConservative
    case Single(StencilAaa) => DrmNone
    case Adaptive => DrmNone
  }

  /**
   * `getPassCount`: the adaptive strategy renders in one pass; the concrete
   * strategies keep the count of the base strategy class, given here.
   */
  function PassCount(k: StrategyKind, basePassCount: nat): (n: nat)
    ensures k == Adaptive ==> n == 1
    ensures k != Adaptive ==> n == basePassCount
  {
    if k == Adaptive then 1 else basePassCount
  }

  /** `getMightUseAAFramebuffer`: both concrete strategies may render through the AA framebuffer. */
  function MightUseAAFramebuffer(v: XcaaVariant): (b: bool)
    ensures b
  {
    true
  }

  /** `usesAAFramebuffer`: StencilAAA always; MCAA only for a monochrome renderer. */
  function UsesAAFramebuffer(v: XcaaVariant, isMulticolor: bool): (b: bool)
    ensures b <==> (v == StencilAaa || !isMulticolor)
    ensures b ==> MightUseAAFramebuffer(v)
  {
    match v
    case Mcaa => !isMulticolor
    case StencilAaa => true
  }

  /** `usesResolveProgram`: a strategy resolves exactly when it antialiases into its own framebuffer. */
  function UsesResolveProgram(v: XcaaVariant, isMulticolor: bool): (b: bool)
    ensures b == UsesAAFramebuffer(v, isMulticolor)
  {
    match v
    case Mcaa => !isMulticolor
    case StencilAaa => true
  }

  // ---------------------------------------------------------------------------
  // What a strategy reads from the renderer, and a snapshot of its own state.

  /**
   * The renderer as a strategy sees it: the answers of its queries
   * (`getIsMulticolor`, `getNeedsStencil`, `getDestFramebuffer`, the
   * allocated and used destination sizes) and its attached meshes.
   */
  datatype Host = Host(
    isMulticolor: bool,
    needsStencil: bool,
    destFramebuffer: Handle,
    destAllocatedSize: Size,
    destUsedSize: Size,
    meshBuffers: seq<PackedMeshBuffers>,
    meshes: seq<PackedMeshes>)

  /** What a strategy is constructed with. */
  datatype Config = Config(variant: XcaaVariant, subpixelAA: bool, supersampleScale: Size)

  /** The mutable fields of an XCAA strategy; a path-bounds slot holding 0 is a null texture. */
  datatype Fields = Fields(
    destFramebufferSize: Size,
    supersampledFramebufferSize: Size,
    aaAlphaTexture: Handle,
    aaDepthTexture: Handle,
    aaFramebuffer: Handle,
    resolveVAO: Handle,
    patchVertexBuffer: Handle,
    patchIndexBuffer: Handle,
    vao: Handle,
    pathBoundsBufferTextures: seq<Handle>)

  /** One operation's effect: the new fields, the commands issued, and how many GL names it created. */
  datatype Step = Step(fields: Fields, events: seq<Call>, created: nat)

  /** The fields of a newly constructed strategy: no GL objects, zero sizes. */
  const INITIAL_FIELDS := Fields(Size(0, 0), Size(0, 0), 0, 0, 0, 0, 0, 0, 0, [])

  // ---------------------------------------------------------------------------
  // Step functions.

  /** `supersampledUsedSize`: the renderer's used size times the supersample scale. */
  function SupersampledUsedSize(c: Config, host: Host): Size {
    Scale(host.destUsedSize, c.supersampleScale)
  }

  /** `createResolveVAO`: a new resolve vertex array, set up under the resolve program, when the strategy resolves. */
  function ResolveVAOStep(c: Config, f: Fields, host: Host, names: nat): Step {
    if !UsesResolveProgram(c.variant, host.isMulticolor) then
      Step(f, [], 0)
    else
      Step(f.(resolveVAO := names + 1),
           [BindVertexArray(names + 1), UseResolveProgram(c.subpixelAA), BindVertexArray(0)], 1)
  }

  /** The strategy's own vertex array: MCAA always creates one, StencilAAA only when meshes are attached. */
  function VAOStep(c: Config, f: Fields, host: Host, names: nat): Step {
    match c.variant
    case Mcaa => Step(f.(vao := names + 1), [], 1)
    case StencilAaa =>
      if !MeshesAttached(host.meshBuffers, host.meshes) then Step(f, [], 0)
      else Step(f.(vao := names + 1), [BindVertexArray(names + 1), BindVertexArray(0)], 1)
  }

  /**
   * `attachMeshes`: the resolve vertex array, a cleared path-bounds texture
   * list, the two patch buffers, then the strategy's own vertex array.
   */
  function AttachStep(c: Config, f: Fields, host: Host, names: nat): (r: Step)
    ensures r.fields.pathBoundsBufferTextures == []
    ensures UsesResolveProgram(c.variant, host.isMulticolor) ==> r.fields.resolveVAO == names + 1
    ensures !UsesResolveProgram(c.variant, host.isMulticolor) ==> r.fields.resolveVAO == f.resolveVAO
    ensures names < r.fields.patchVertexBuffer < r.fields.patchIndexBuffer
    ensures c.variant == Mcaa || MeshesAttached(host.meshBuffers, host.meshes) ==>
      r.fields.vao == names + r.created && r.fields.vao > r.fields.patchIndexBuffer
    ensures !(c.variant == Mcaa || MeshesAttached(host.meshBuffers, host.meshes)) ==> r.fields.vao == f.vao
    ensures r.fields.(resolveVAO := f.resolveVAO, patchVertexBuffer := f.patchVertexBuffer,
                      patchIndexBuffer := f.patchIndexBuffer, vao := f.vao,
                      pathBoundsBufferTextures := f.pathBoundsBufferTextures) == f
  {
    var rv := ResolveVAOStep(c, f, host, names);
    var n := names + rv.created;
    var patched := rv.fields.(pathBoundsBufferTextures := [], patchVertexBuffer := n + 1, patchIndexBuffer := n + 2);
    var v := VAOStep(c, patched, host, n + 2);
    Step(v.fields, rv.events + v.events, rv.created + 2 + v.created)
  }

  /**
   * `initAAAlphaFramebuffer`: a strategy that might antialias into its own
   * framebuffer gets a fresh alpha texture and depth texture of the
   * supersampled size and a fresh framebuffer over them; one that never
   * does deletes the three (the framebuffer through the texture call, as
   * written) and resets them to 0.
   */
  function AAFramebufferStep(f: Fields, mightUse: bool, names: nat): (r: Step)
    ensures r.fields.(aaAlphaTexture := f.aaAlphaTexture, aaDepthTexture := f.aaDepthTexture,
                      aaFramebuffer := f.aaFramebuffer) == f
    ensures !mightUse ==>
      r.fields.aaAlphaTexture == 0 && r.fields.aaDepthTexture == 0 && r.fields.aaFramebuffer == 0 && r.created == 0
    ensures mightUse ==>
      names < r.fields.aaAlphaTexture < r.fields.aaDepthTexture < r.fields.aaFramebuffer == names + r.created
    ensures mightUse ==>
      TexImage(r.fields.aaAlphaTexture, f.supersampledFramebufferSize) in r.events
      && TexImage(r.fields.aaDepthTexture, f.supersampledFramebufferSize) in r.events
  {
    if !mightUse then
      Step(f.(aaAlphaTexture := 0, aaDepthTexture := 0, aaFramebuffer := 0),
           [DeleteTexture(f.aaAlphaTexture), DeleteTexture(f.aaDepthTexture), DeleteTexture(f.aaFramebuffer)], 0)
    else
      var size := f.supersampledFramebufferSize;
      Step(f.(aaAlphaTexture := names + 1, aaDepthTexture := names + 2, aaFramebuffer := names + 3),
           [BindTexture(names + 1), TexImage(names + 1, size), TexImage(names + 2, size)], 3)
  }

  /** `setFramebufferSize`: records the destination size, derives the supersampled size, rebuilds the AA framebuffer. */
  function FramebufferSizeStep(c: Config, f: Fields, host: Host, names: nat): (r: Step)
    ensures r.fields.destFramebufferSize == host.destAllocatedSize
    ensures r.fields.supersampledFramebufferSize == Scale(host.destAllocatedSize, c.supersampleScale)
    ensures names < r.fields.aaAlphaTexture < r.fields.aaDepthTexture < r.fields.aaFramebuffer == names + r.created
    ensures r.fields.(destFramebufferSize := f.destFramebufferSize,
                      supersampledFramebufferSize := f.supersampledFramebufferSize,
                      aaAlphaTexture := f.aaAlphaTexture, aaDepthTexture := f.aaDepthTexture,
                      aaFramebuffer := f.aaFramebuffer) == f
    ensures |r.events| > 0 && r.events[|r.events| - 1] == BindFramebuffer(0)
  {
    var dest := host.destAllocatedSize;
    var sized := f.(destFramebufferSize := dest, supersampledFramebufferSize := Scale(dest, c.supersampleScale));
    var a := AAFramebufferStep(sized, MightUseAAFramebuffer(c.variant), names);
    Step(a.fields, a.events + [BindFramebuffer(0)], a.created)
  }

  /** `initResolveFramebufferForObject`: back to the destination framebuffer at its full size, scissor off. */
  function ResolveFramebufferEvents(f: Fields, host: Host): seq<Call> {
    [BindFramebuffer(host.destFramebuffer), Viewport(f.destFramebufferSize), DisableScissor]
  }

  /**
   * `finishAntialiasingObject`: rebinds the destination, then, only when the
   * strategy uses the AA framebuffer, clears the supersampled used area to
   * white.
   */
  function FinishAAEvents(c: Config, f: Fields, host: Host): (r: seq<Call>)
    ensures |r| >= 3 && r[..3] == ResolveFramebufferEvents(f, host)
    ensures !UsesAAFramebuffer(c.variant, host.isMulticolor) ==> |r| == 3
  {
    ResolveFramebufferEvents(f, host)
    + if !UsesAAFramebuffer(c.variant, host.isMulticolor) then []
      else [Scissor(SupersampledUsedSize(c, host)), ClearColorAndDepth(Color(1.0, 1.0, 1.0, 1.0))]
  }

  /** `prepareAA` and `setAAState`: the AA framebuffer if used, the supersampled viewport and used-area scissor. */
  function PrepareAAEvents(c: Config, f: Fields, host: Host): seq<Call> {
    (if UsesAAFramebuffer(c.variant, host.isMulticolor) then [BindFramebuffer(f.aaFramebuffer)] else [])
    + [Viewport(f.supersampledFramebufferSize), Scissor(SupersampledUsedSize(c, host))]
  }

  /** `clearForAA`: StencilAAA always clears; MCAA only when it uses the AA framebuffer. */
  function ClearForAAEvents(c: Config, host: Host): seq<Call> {
    if UsesAAFramebuffer(c.variant, host.isMulticolor) then [ClearColorAndDepth(TRANSPARENT_BLACK)] else []
  }

  /** The texture an object's path bounds are uploaded to: the existing one, or a fresh one for a null slot. */
  function PathBoundsTexture(f: Fields, objectIndex: int, names: nat): (tex: Handle)
    requires 0 <= objectIndex < |f.pathBoundsBufferTextures|
    ensures tex != 0
    ensures f.pathBoundsBufferTextures[objectIndex] != 0 ==> tex == f.pathBoundsBufferTextures[objectIndex]
    ensures f.pathBoundsBufferTextures[objectIndex] == 0 ==> tex > names
  {
    var slot := f.pathBoundsBufferTextures[objectIndex];
    if slot == 0 then names + 1 else slot
  }

  /** What MCAA's antialiasing pass reads without a bound check: the object's buffers and CPU meshes. */
  predicate EdgesDefined(host: Host, objectIndex: int) {
    MeshesAttached(host.meshBuffers, host.meshes) ==>
      0 <= objectIndex < |host.meshBuffers| && 0 <= objectIndex < |host.meshes|
  }

  /**
   * MCAA `initVAOForObject` and `antialiasEdgesOfObjectWithProgram`: with
   * meshes attached, point the vertex array at the object's first bounding
   * box and draw one instanced patch per bounding box of its paths.
   */
  function EdgeEvents(f: Fields, host: Host, objectIndex: int, tex: Handle): seq<Call>
    requires EdgesDefined(host, objectIndex)
  {
    if !MeshesAttached(host.meshBuffers, host.meshes) then
      []
    else
      var pathRange := PathRangeForObject(host.meshBuffers, objectIndex);
      var table := host.meshes[MeshIndexForObject(objectIndex)].bBoxPathRanges;
      [BindVertexArray(f.vao), AttribOffset(MeshIndex.CalculateStartFromIndexRanges(pathRange, table)), BindVertexArray(0),
       BindTexture(tex), BindVertexArray(f.vao),
       DrawElementsInstanced(6, MeshIndex.CalculateCountFromIndexRanges(pathRange, table)),
       BindVertexArray(0)]
  }

  /** The first `sides` iterations of StencilAAA's side loop: set `uSide`, draw every stencil segment. */
  function SideDraws(sides: nat, count: int): seq<Call> {
    if sides == 0 then []
    else SideDraws(sides - 1, count) + [SetSide(sides - 1), DrawElementsInstanced(6, count)]
  }

  /**
   * StencilAAA's own part of `antialiasObject`: nothing without meshes;
   * otherwise the AA state again, then both sides of every stencil segment of
   * the first mesh.
   */
  function StencilEvents(c: Config, f: Fields, host: Host, tex: Handle): seq<Call> {
    if |host.meshes| == 0 then
      []
    else
      PrepareAAEvents(c, f, host) + [BindTexture(tex), BindVertexArray(f.vao)]
      + SideDraws(2, host.meshes[0].stencilSegmentCount) + [BindVertexArray(0)]
  }

  /** What `antialiasObject` reads without a bound check. */
  predicate AntialiasDefined(c: Config, f: Fields, host: Host, objectIndex: int) {
    && 0 <= objectIndex < |f.pathBoundsBufferTextures|
    && (c.variant == Mcaa ==> EdgesDefined(host, objectIndex))
  }

  /**
   * `antialiasObject`: upload the object's path bounds (creating the texture
   * for a null slot), prepare and clear the AA target, then the variant's
   * own drawing.
   */
  function AntialiasStep(c: Config, f: Fields, host: Host, objectIndex: int, boundsLength: nat, names: nat): (r: Step)
    requires AntialiasDefined(c, f, host, objectIndex)
    ensures |r.fields.pathBoundsBufferTextures| == |f.pathBoundsBufferTextures|
    ensures r.fields.pathBoundsBufferTextures[objectIndex] != 0
    ensures f.pathBoundsBufferTextures[objectIndex] != 0 ==>
      r.fields.pathBoundsBufferTextures[objectIndex] == f.pathBoundsBufferTextures[objectIndex] && r.created == 0
    ensures f.pathBoundsBufferTextures[objectIndex] == 0 ==>
      r.fields.pathBoundsBufferTextures[objectIndex] == names + 1 && r.created == 1
    ensures forall j :: 0 <= j < |f.pathBoundsBufferTextures| && j != objectIndex ==>
      r.fields.pathBoundsBufferTextures[j] == f.pathBoundsBufferTextures[j]
    ensures r.fields.(pathBoundsBufferTextures := f.pathBoundsBufferTextures) == f
    ensures |r.events| > 0 && r.events[0] == Upload(r.fields.pathBoundsBufferTextures[objectIndex], boundsLength)
  {
    var tex := PathBoundsTexture(f, objectIndex, names);
    var g := f.(pathBoundsBufferTextures := f.pathBoundsBufferTextures[objectIndex := tex]);
    var own := if c.variant == Mcaa then EdgeEvents(g, host, objectIndex, tex) else StencilEvents(c, g, host, tex);
    Step(g, [Upload(tex, boundsLength)] + PrepareAAEvents(c, g, host) + ClearForAAEvents(c, host) + own,
         if f.pathBoundsBufferTextures[objectIndex] == 0 then 1 else 0)
  }

  /** `clearForResolve`: MCAA clears to opaque black for a monochrome renderer; StencilAAA clears to transparent black. */
  function ClearForResolveEvents(c: Config, host: Host): seq<Call> {
    match c.variant
    case Mcaa => if !host.isMulticolor then [ClearColorOnly(Color(0.0, 0.0, 0.0, 1.0))] else []
    case StencilAaa => [ClearColorOnly(TRANSPARENT_BLACK)]
  }

  /**
   * `resolveAAForObject`: nothing without the AA framebuffer; otherwise scissor
   * to the used destination area, clear, and draw one quad with the resolve
   * program sampling the alpha texture at the supersampled size.
   */
  function ResolveEvents(c: Config, f: Fields, host: Host): (r: seq<Call>)
    ensures r == [] <==> !UsesAAFramebuffer(c.variant, host.isMulticolor)
    ensures r != [] ==> BindTexture(f.aaAlphaTexture) in r && DrawElements(6, 0) in r
  {
    if !UsesAAFramebuffer(c.variant, host.isMulticolor) then
      []
    else
      [Scissor(host.destUsedSize), DisableDepthAndBlend]
      + ClearForResolveEvents(c, host)
      + ResolveProgramSetup(c, f)
      + [DrawElements(6, 0), BindVertexArray(0)]
  }

  /** The resolve program with its vertex array, destination size and alpha texture, before the quad is drawn. */
  function ResolveProgramSetup(c: Config, f: Fields): seq<Call> {
    var dest := f.destFramebufferSize;
    var supersampled := f.supersampledFramebufferSize;
    [UseResolveProgram(c.subpixelAA), BindVertexArray(f.resolveVAO),
     SetNamedUniform(ShaderLoader.UniformId(ShaderLoader.UFramebufferSize), Ints([dest.x, dest.y])),
     BindTexture(f.aaAlphaTexture),
     SetNamedUniform(ShaderLoader.UniformId(ShaderLoader.UAAAlpha), Ints([0])),
     SetNamedUniform(ShaderLoader.UniformId(ShaderLoader.UAAAlphaDimensions), Ints([supersampled.x, supersampled.y]))]
  }

  // ---------------------------------------------------------------------------
  // Laws of the steps.

  /** The side loop issues, for each side in turn, its `uSide` value and then one instanced draw. */
  lemma {:induction false} SideDrawsShape(sides: nat, count: int)
    ensures |SideDraws(sides, count)| == 2 * sides
    ensures forall i :: 0 <= i < sides ==>
      SideDraws(sides, count)[2 * i] == SetSide(i)
      && SideDraws(sides, count)[2 * i + 1] == DrawElementsInstanced(6, count)
    ensures Count(SideDraws(sides, count), Draws) == sides
  {
    if sides > 0 {
      var last := [SetSide(sides - 1), DrawElementsInstanced(6, count)];
      SideDrawsShape(sides - 1, count);
      CountAppend(SideDraws(sides - 1, count), last, Draws);
      CountPair(last[0], last[1], Draws);
    }
  }

  /**
   * StencilAAA's drawing: nothing at all without meshes; otherwise exactly two
   * instanced draws of every stencil segment of the first mesh, for side 0
   * and then side 1.
   */
  lemma StencilDrawsBothSides(c: Config, f: Fields, host: Host, tex: Handle)
    ensures |host.meshes| == 0 ==> StencilEvents(c, f, host, tex) == []
    ensures |host.meshes| > 0 ==>
      var e := StencilEvents(c, f, host, tex);
      var count := host.meshes[0].stencilSegmentCount;
      && Count(e, Draws) == 2
      && |e| >= 5
      && e[|e| - 5..|e| - 1] == [SetSide(0), DrawElementsInstanced(6, count), SetSide(1), DrawElementsInstanced(6, count)]
  {
    if |host.meshes| > 0 {
      var count := host.meshes[0].stencilSegmentCount;
      var setup := PrepareAAEvents(c, f, host) + [BindTexture(tex), BindVertexArray(f.vao)];
      var sides := SideDraws(2, count);
      SideDrawsShape(2, count);
      assert sides == [SetSide(0), DrawElementsInstanced(6, count), SetSide(1), DrawElementsInstanced(6, count)];
      CountNone(setup, Draws);
      CountAppend(setup, sides, Draws);
      CountAppend(setup + sides, [BindVertexArray(0)], Draws);
      assert StencilEvents(c, f, host, tex) == (setup + sides) + [BindVertexArray(0)];
    }
  }

  /**
   * MCAA's drawing: with meshes attached and an ascending bounding-box table
   * holding one entry per path of the object, the vertex arrays start at the
   * first box of the table and one instanced draw covers every box up to the
   * end of the last one, the same span the mesh index resolver gives. Without
   * meshes nothing is drawn.
   */
  lemma McaaDrawsWholeObject(f: Fields, host: Host, objectIndex: int, tex: Handle)
    requires EdgesDefined(host, objectIndex)
    ensures !MeshesAttached(host.meshBuffers, host.meshes) ==> EdgeEvents(f, host, objectIndex, tex) == []
    ensures MeshesAttached(host.meshBuffers, host.meshes) ==>
      var table := host.meshes[objectIndex].bBoxPathRanges;
      var pathRange := PathRangeForObject(host.meshBuffers, objectIndex);
      var e := EdgeEvents(f, host, objectIndex, tex);
      (|table| == |host.meshBuffers[objectIndex].bQuadVertexPositionPathRanges| > 0 && !MeshIndex.IsDescending(table) ==>
        && e[1] == AttribOffset(MeshIndex.GetMeshIndexRange(table, pathRange).start)
        && e[5] == DrawElementsInstanced(6, MeshIndex.GetMeshIndexRange(table, pathRange).Length())
        && MeshIndex.GetMeshIndexRange(table, pathRange) == Range(table[0].start, MeshIndex.Last(table).end))
      && Count(e, Draws) == 1
  {
    if MeshesAttached(host.meshBuffers, host.meshes) {
      var table := host.meshes[objectIndex].bBoxPathRanges;
      var pathRange := PathRangeForObject(host.meshBuffers, objectIndex);
      var e := EdgeEvents(f, host, objectIndex, tex);
      if |table| == |host.meshBuffers[objectIndex].bQuadVertexPositionPathRanges| > 0 && !MeshIndex.IsDescending(table) {
        MeshIndex.StartCountAgreeWithResolver(table, pathRange);
        ObjectRangeCoversTable(host.meshBuffers, objectIndex, table);
      }
      assert e == e[..5] + [e[5]] + [e[6]];
      CountNone(e[..5], Draws);
      CountLast(e[..5], e[5], Draws);
      CountLast(e[..5] + [e[5]], e[6], Draws);
    }
  }

  /**
   * With a used destination area inside the allocated one and a non-negative
   * supersample scale, the AA scissor lies inside the supersampled viewport
   * that `setFramebufferSize` sets up.
   */
  lemma SupersampledScissorFits(c: Config, f: Fields, host: Host, names: nat)
    requires FitsWithin(host.destUsedSize, host.destAllocatedSize)
    requires c.supersampleScale.x >= 0 && c.supersampleScale.y >= 0
    ensures FitsWithin(SupersampledUsedSize(c, host),
                       FramebufferSizeStep(c, f, host, names).fields.supersampledFramebufferSize)
  {
    ScaleMonotone(host.destUsedSize, host.destAllocatedSize, c.supersampleScale);
  }

  /** The resolve pass draws its quad exactly once when the strategy uses the AA framebuffer, and draws nothing otherwise. */
  lemma ResolveDrawsOnce(c: Config, f: Fields, host: Host)
    ensures Count(ResolveEvents(c, f, host), Draws) == if UsesAAFramebuffer(c.variant, host.isMulticolor) then 1 else 0
  {
    if UsesAAFramebuffer(c.variant, host.isMulticolor) {
      var head := [Scissor(host.destUsedSize), DisableDepthAndBlend] + ClearForResolveEvents(c, host) + ResolveProgramSetup(c, f);
      var tail := [DrawElements(6, 0), BindVertexArray(0)];
      CountNone(head, Draws);
      CountPair(tail[0], tail[1], Draws);
      CountAppend(head, tail, Draws);
    }
  }

  // ---------------------------------------------------------------------------
  // The concrete strategies.

  class XcaaStrategy {
    const variant: XcaaVariant
    const subpixelAA: bool
    const supersampleScale: Size
    var destFramebufferSize: Size
    var supersampledFramebufferSize: Size
    var aaAlphaTexture: Handle
    var aaDepthTexture: Handle
    var aaFramebuffer: Handle
    var resolveVAO: Handle
    var patchVertexBuffer: Handle
    var patchIndexBuffer: Handle
    var vao: Handle
    var pathBoundsBufferTextures: seq<Handle>

    function Cfg(): Config {
      Config(variant, subpixelAA, supersampleScale)
    }

    function Snapshot(): Fields
      reads this
    {
      Fields(destFramebufferSize, supersampledFramebufferSize, aaAlphaTexture, aaDepthTexture, aaFramebuffer,
             resolveVAO, patchVertexBuffer, patchIndexBuffer, vao, pathBoundsBufferTextures)
    }

    /** The XCAA constructor: every GL name 0, both sizes zero. */
    constructor(variant: XcaaVariant, subpixelAA: bool, supersampleScale: Size)
      ensures Cfg() == Config(variant, subpixelAA, supersampleScale)
      ensures Snapshot() == INITIAL_FIELDS
    {
      this.variant := variant;
      this.subpixelAA := subpixelAA;
      this.supersampleScale := supersampleScale;
      destFramebufferSize := Size(0, 0);
      supersampledFramebufferSize := Size(0, 0);
      aaAlphaTexture := 0;
      aaDepthTexture := 0;
      aaFramebuffer := 0;
      resolveVAO := 0;
      patchVertexBuffer := 0;
      patchIndexBuffer := 0;
      vao := 0;
      pathBoundsBufferTextures := [];
    }

    /** An entry point inherited from the base strategy class, whose body is not part of this model. */
    method Inherit(gl: CommandStream, op: StrategyOp)
      modifies gl
      ensures gl.log == old(gl.log) + [Inherited(variant, op)] && gl.names == old(gl.names)
    {
      gl.Emit(Inherited(variant, op));
    }

    method CreateResolveVAO(gl: CommandStream, host: Host)
      modifies this, gl
      ensures Snapshot() == ResolveVAOStep(Cfg(), old(Snapshot()), host, old(gl.names)).fields
      ensures gl.log == old(gl.log) + ResolveVAOStep(Cfg(), old(Snapshot()), host, old(gl.names)).events
      ensures gl.names == old(gl.names) + ResolveVAOStep(Cfg(), old(Snapshot()), host, old(gl.names)).created
    {
      if !UsesResolveProgram(variant, host.isMulticolor) {
        return;
      }
      resolveVAO := gl.Create();
      gl.EmitAll([BindVertexArray(resolveVAO), UseResolveProgram(subpixelAA), BindVertexArray(0)]);
    }

    /** MCAA's `glCreateVertexArrays` in `attachMeshes`, StencilAAA's `createVAO`. */
    method CreateVAO(gl: CommandStream, host: Host)
      modifies this, gl
      ensures Snapshot() == VAOStep(Cfg(), old(Snapshot()), host, old(gl.names)).fields
      ensures gl.log == old(gl.log) + VAOStep(Cfg(), old(Snapshot()), host, old(gl.names)).events
      ensures gl.names == old(gl.names) + VAOStep(Cfg(), old(Snapshot()), host, old(gl.names)).created
    {
      if variant == StencilAaa && !MeshesAttached(host.meshBuffers, host.meshes) {
        return;
      }
      vao := gl.Create();
      if variant == StencilAaa {
        gl.EmitAll([BindVertexArray(vao), BindVertexArray(0)]);
      }
    }

    method AttachMeshes(gl: CommandStream, host: Host)
      modifies this, gl
      ensures Snapshot() == AttachStep(Cfg(), old(Snapshot()), host, old(gl.names)).fields
      ensures gl.log == old(gl.log) + AttachStep(Cfg(), old(Snapshot()), host, old(gl.names)).events
      ensures gl.names == old(gl.names) + AttachStep(Cfg(), old(Snapshot()), host, old(gl.names)).created
    {
      CreateResolveVAO(gl, host);
      pathBoundsBufferTextures := [];
      patchVertexBuffer := gl.Create();
      patchIndexBuffer := gl.Create();
      CreateVAO(gl, host);
    }

    method InitAAAlphaFramebuffer(gl: CommandStream, mightUse: bool)
      modifies this, gl
      ensures Snapshot() == AAFramebufferStep(old(Snapshot()), mightUse, old(gl.names)).fields
      ensures gl.log == old(gl.log) + AAFramebufferStep(old(Snapshot()), mightUse, old(gl.names)).events
      ensures gl.names == old(gl.names) + AAFramebufferStep(old(Snapshot()), mightUse, old(gl.names)).created
    {
      if !mightUse {
        gl.EmitAll([DeleteTexture(aaAlphaTexture), DeleteTexture(aaDepthTexture), DeleteTexture(aaFramebuffer)]);
        aaAlphaTexture := 0;
        aaDepthTexture := 0;
        aaFramebuffer := 0;
        return;
      }
      aaAlphaTexture := gl.Create();
      gl.EmitAll([BindTexture(aaAlphaTexture), TexImage(aaAlphaTexture, supersampledFramebufferSize)]);
      aaDepthTexture := gl.Create();
      gl.Emit(TexImage(aaDepthTexture, supersampledFramebufferSize));
      aaFramebuffer := gl.Create();
    }

    method SetFramebufferSize(gl: CommandStream, host: Host)
      modifies this, gl
      ensures Snapshot() == FramebufferSizeStep(Cfg(), old(Snapshot()), host, old(gl.names)).fields
      ensures gl.log == old(gl.log) + FramebufferSizeStep(Cfg(), old(Snapshot()), host, old(gl.names)).events
      ensures gl.names == old(gl.names) + FramebufferSizeStep(Cfg(), old(Snapshot()), host, old(gl.names)).created
    {
      destFramebufferSize := host.destAllocatedSize;
      supersampledFramebufferSize := Scale(destFramebufferSize, supersampleScale);
      InitAAAlphaFramebuffer(gl, MightUseAAFramebuffer(variant));
      gl.Emit(BindFramebuffer(0));
    }

    method FinishAntialiasingObject(gl: CommandStream, host: Host, objectIndex: int)
      modifies gl
      ensures gl.log == old(gl.log) + FinishAAEvents(Cfg(), Snapshot(), host) && gl.names == old(gl.names)
    {
      gl.EmitAll(ResolveFramebufferEvents(Snapshot(), host));
      if !UsesAAFramebuffer(variant, host.isMulticolor) {
        return;
      }
      gl.EmitAll([Scissor(SupersampledUsedSize(Cfg(), host)), ClearColorAndDepth(Color(1.0, 1.0, 1.0, 1.0))]);
    }

    /** `createPathBoundsBufferTextureForObjectIfNecessary`; the bounds themselves are the renderer's, given by length. */
    method CreatePathBoundsBufferTextureForObjectIfNecessary(gl: CommandStream, objectIndex: int, boundsLength: nat)
      returns (tex: Handle)
      requires 0 <= objectIndex < |pathBoundsBufferTextures|
      modifies this, gl
      ensures tex == PathBoundsTexture(old(Snapshot()), objectIndex, old(gl.names))
      ensures Snapshot() == old(Snapshot()).(pathBoundsBufferTextures := old(pathBoundsBufferTextures)[objectIndex := tex])
      ensures gl.log == old(gl.log) + [Upload(tex, boundsLength)]
      ensures gl.names == old(gl.names) + if old(pathBoundsBufferTextures)[objectIndex] == 0 then 1 else 0
    {
      tex := pathBoundsBufferTextures[objectIndex];
      if tex == 0 {
        tex := gl.Create();
        pathBoundsBufferTextures := pathBoundsBufferTextures[objectIndex := tex];
      }
      gl.Emit(Upload(tex, boundsLength));
    }

    method PrepareAA(gl: CommandStream, host: Host)
      modifies gl
      ensures gl.log == old(gl.log) + PrepareAAEvents(Cfg(), Snapshot(), host) && gl.names == old(gl.names)
    {
      if UsesAAFramebuffer(variant, host.isMulticolor) {
        gl.Emit(BindFramebuffer(aaFramebuffer));
      }
      gl.EmitAll([Viewport(supersampledFramebufferSize), Scissor(SupersampledUsedSize(Cfg(), host))]);
    }

    method ClearForAA(gl: CommandStream, host: Host)
      modifies gl
      ensures gl.log == old(gl.log) + ClearForAAEvents(Cfg(), host) && gl.names == old(gl.names)
    {
      if UsesAAFramebuffer(variant, host.isMulticolor) {
        gl.Emit(ClearColorAndDepth(TRANSPARENT_BLACK));
      }
    }

    method AntialiasEdgesOfObject(gl: CommandStream, host: Host, objectIndex: int, tex: Handle)
      requires EdgesDefined(host, objectIndex)
      modifies gl
      ensures gl.log == old(gl.log) + EdgeEvents(Snapshot(), host, objectIndex, tex) && gl.names == old(gl.names)
    {
      if !MeshesAttached(host.meshBuffers, host.meshes) {
        return;
      }
      var pathRange := PathRangeForObject(host.meshBuffers, objectIndex);
      var bBoxRanges := host.meshes[MeshIndexForObject(objectIndex)].bBoxPathRanges;
      var offset := MeshIndex.CalculateStartFromIndexRanges(pathRange, bBoxRanges);
      gl.EmitAll([BindVertexArray(vao), AttribOffset(offset), BindVertexArray(0)]);
      gl.EmitAll([BindTexture(tex), BindVertexArray(vao)]);
      var count := MeshIndex.CalculateCountFromIndexRanges(pathRange, bBoxRanges);
      gl.EmitAll([DrawElementsInstanced(6, count), BindVertexArray(0)]);
    }

    method StencilAntialias(gl: CommandStream, host: Host, tex: Handle)
      modifies gl
      ensures gl.log == old(gl.log) + StencilEvents(Cfg(), Snapshot(), host, tex) && gl.names == old(gl.names)
    {
      if |host.meshes| == 0 {
        return;
      }
      PrepareAA(gl, host);
      gl.EmitAll([BindTexture(tex), BindVertexArray(vao)]);
      ghost var before := gl.log;
      var count := host.meshes[0].stencilSegmentCount;
      var side := 0;
      while side < 2
        invariant 0 <= side <= 2
        invariant gl.log == before + SideDraws(side, count) && gl.names == old(gl.names)
      {
        gl.EmitAll([SetSide(side), DrawElementsInstanced(6, count)]);
        side := side + 1;
      }
      gl.Emit(BindVertexArray(0));
    }

    method AntialiasObject(gl: CommandStream, host: Host, objectIndex: int, boundsLength: nat)
      requires AntialiasDefined(Cfg(), Snapshot(), host, objectIndex)
      modifies this, gl
      ensures Snapshot() == AntialiasStep(Cfg(), old(Snapshot()), host, objectIndex, boundsLength, old(gl.names)).fields
      ensures gl.log == old(gl.log) + AntialiasStep(Cfg(), old(Snapshot()), host, objectIndex, boundsLength, old(gl.names)).events
      ensures gl.names == old(gl.names) + AntialiasStep(Cfg(), old(Snapshot()), host, objectIndex, boundsLength, old(gl.names)).created
    {
      ghost var step := AntialiasStep(Cfg(), Snapshot(), host, objectIndex, boundsLength, gl.names);
      ghost var log0 := gl.log;
      var tex := CreatePathBoundsBufferTextureForObjectIfNecessary(gl, objectIndex, boundsLength);
      ghost var g := Snapshot();
      assert g == step.fields;
      PrepareAA(gl, host);
      ClearForAA(gl, host);
      ghost var own := if variant == Mcaa then EdgeEvents(g, host, objectIndex, tex) else StencilEvents(Cfg(), g, host, tex);
      if variant == Mcaa {
        AntialiasEdgesOfObject(gl, host, objectIndex, tex);
      } else {
        StencilAntialias(gl, host, tex);
      }
      assert step.events == [Upload(tex, boundsLength)] + PrepareAAEvents(Cfg(), g, host) + ClearForAAEvents(Cfg(), host) + own;
      Append4Associates(log0, [Upload(tex, boundsLength)], PrepareAAEvents(Cfg(), g, host), ClearForAAEvents(Cfg(), host), own);
    }

    method ResolveAAForObject(gl: CommandStream, host: Host, objectIndex: int)
      modifies gl
      ensures gl.log == old(gl.log) + ResolveEvents(Cfg(), Snapshot(), host) && gl.names == old(gl.names)
    {
      if !UsesAAFramebuffer(variant, host.isMulticolor) {
        return;
      }
      gl.EmitAll([Scissor(host.destUsedSize), DisableDepthAndBlend]);
      gl.EmitAll(ClearForResolveEvents(Cfg(), host));
      gl.EmitAll(ResolveProgramSetup(Cfg(), Snapshot()));
      gl.EmitAll([DrawElements(6, 0), BindVertexArray(0)]);
    }
  }
}
