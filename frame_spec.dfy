/**
 * What one `renderAtlas` call issues, as a pure function of the renderer's
 * state: the atlas clear, `prepareForRendering`, then for every pass the
 * optional direct-rendering preparation, the per-object sequence
 * (direct rendering when the strategy renders directly, then antialias,
 * finish, resolve) and the pass's `resolve`. Calls into the strategy appear as
 * `Invoke` events; the lemmas count how often each strategy entry point is
 * reached in a frame.
 */
module FrameSpec {
  import opened Geometry
  import opened Trace
  import MeshIndex
  import opened RendererState
  import opened XcaaStrategies

  /**
   * The strategy a renderer holds, as far as the renderer's loops depend on
   * it: its answers to `getDirectRenderingMode` and `getPassCount`. The
   * renderer creates its strategy through a factory its subclass supplies,
   * so any answers are possible; `XcaaProfile` gives those of the XCAA
   * strategies.
   */
  datatype StrategyProfile = StrategyProfile(directMode: DirectRenderingMode, passCount: nat)

  /** The answers of an XCAA strategy whose base class reports `basePassCount` passes. */
  function XcaaProfile(kind: StrategyKind, basePassCount: nat): StrategyProfile {
    StrategyProfile(DirectRenderingModeOf(kind), PassCount(kind, basePassCount))
  }

  /**
   * The renderer state and subclass answers one frame depends on: the
   * strategy, the attached meshes, the two implicit-cover vertex arrays, the
   * object count and the atlas framebuffer and its size.
   */
  datatype Frame = Frame(
    strategy: StrategyProfile,
    meshBuffers: seq<PackedMeshBuffers>,
    meshes: seq<PackedMeshes>,
    interiorVAO: Handle,
    curveVAO: Handle,
    objectCount: int,
    atlasFramebuffer: Handle,
    atlasAllocatedSize: Size)

  function Mode(fr: Frame): DirectRenderingMode {
    fr.strategy.directMode
  }

  function Passes(fr: Frame): nat {
    fr.strategy.passCount
  }

  /** How many times the object loop runs: a negative object count runs it zero times. */
  function Objects(fr: Frame): nat {
    if fr.objectCount < 0 then 0 else fr.objectCount
  }

  /** `getBGColor`: the atlas is cleared to opaque white. */
  const BG_COLOR := Color(1.0, 1.0, 1.0, 1.0)

  /** `clearDestFramebuffer`. */
  function ClearDestEvents(fr: Frame): seq<Call> {
    [BindFramebuffer(fr.atlasFramebuffer), Viewport(fr.atlasAllocatedSize), ClearColorAndDepth(BG_COLOR)]
  }

  /** What `directlyRenderObject` reads without a bound check once meshes are attached. */
  predicate DirectDefined(fr: Frame, objectIndex: int) {
    MeshesAttached(fr.meshBuffers, fr.meshes) ==>
      && 0 <= objectIndex < |fr.meshBuffers|
      && 0 <= objectIndex < |fr.meshes|
      && MeshIndex.MeshIndexRangeDefined(fr.meshBuffers[objectIndex].bQuadVertexInteriorIndexPathRanges,
                                         PathRangeForObject(fr.meshBuffers, objectIndex))
  }

  /** The object's interior index range: its path range resolved against its interior table. */
  function InteriorRange(fr: Frame, objectIndex: int): Range
    requires DirectDefined(fr, objectIndex) && MeshesAttached(fr.meshBuffers, fr.meshes)
  {
    MeshIndex.GetMeshIndexRange(fr.meshBuffers[MeshIndexForObject(objectIndex)].bQuadVertexInteriorIndexPathRanges,
                                PathRangeForObject(fr.meshBuffers, objectIndex))
  }

  /**
   * The object's B-quad range: its path range resolved against its position
   * table, which the path range always fits since both have one entry per path.
   */
  function CoverRange(fr: Frame, objectIndex: int): Range
    requires DirectDefined(fr, objectIndex) && MeshesAttached(fr.meshBuffers, fr.meshes)
  {
    MeshIndex.GetMeshIndexRange(fr.meshBuffers[MeshIndexForObject(objectIndex)].bQuadVertexPositionPathRanges,
                                PathRangeForObject(fr.meshBuffers, objectIndex))
  }

  /**
   * The draws of `directlyRenderObject` for an object it does not skip, given
   * the object's resolved interior and cover ranges: the interior triangles,
   * then, unless the strategy renders conservatively, the curve patches; the
   * non-instanced calls unless path IDs are instanced.
   */
  function DirectDraws(fr: Frame, interior: Range, cover: Range, instanceRange: Range, instanced: bool): (r: seq<Call>)
    ensures forall k :: 0 <= k < |r| ==> r[k].BindVertexArray? || Matches(r[k], Draws)
  {
    var curves :=
      if Mode(fr) == DrmConservative then []
      else [BindVertexArray(fr.curveVAO), CurveDraw(cover, instanceRange, instanced)];
    [BindVertexArray(fr.interiorVAO), InteriorDraw(interior, instanceRange, instanced)] + curves + [BindVertexArray(0)]
  }

  /** The interior draw: indexed triangles over the interior index range. */
  function InteriorDraw(interior: Range, instanceRange: Range, instanced: bool): (c: Call)
    ensures Matches(c, Draws)
  {
    if !instanced then DrawElements(interior.Length(), interior.start)
    else DrawElementsInstanced(interior.Length(), instanceRange.Length())
  }

  /** The curve draw: six vertices for each B-quad of the position range. */
  function CurveDraw(cover: Range, instanceRange: Range, instanced: bool): (c: Call)
    ensures Matches(c, Draws)
  {
    if !instanced then DrawArrays(cover.start * 6, cover.Length() * 6)
    else DrawArraysInstanced(cover.Length() * 6, instanceRange.Length())
  }

  /**
   * `directlyRenderObject`, given the object's instance range and whether
   * path IDs are instanced: nothing at all (not even the strategy's finish
   * call) without meshes or with an empty instance range; otherwise the draws
   * and then the strategy's `finishDirectlyRenderingObject`.
   */
  function DirectEvents(fr: Frame, objectIndex: int, instanceRange: Range, instanced: bool): (r: seq<Call>)
    requires DirectDefined(fr, objectIndex)
    ensures (!MeshesAttached(fr.meshBuffers, fr.meshes) || instanceRange.IsEmpty()) <==> r == []
    ensures r != [] ==> r[|r| - 1] == Invoke(FinishDirectlyRenderingObject(objectIndex))
  {
    if !MeshesAttached(fr.meshBuffers, fr.meshes) || instanceRange.IsEmpty() then []
    else
      DirectDraws(fr, InteriorRange(fr, objectIndex), CoverRange(fr, objectIndex), instanceRange, instanced)
      + [Invoke(FinishDirectlyRenderingObject(objectIndex))]
  }

  /** Every object the loop visits can be rendered directly when the strategy asks for it. */
  predicate FrameDefined(fr: Frame) {
    Mode(fr) != DrmNone ==> forall i :: 0 <= i < Objects(fr) ==> DirectDefined(fr, i)
  }

  /** The direct-rendering part of one object's iteration. */
  function DirectPart(fr: Frame, objectIndex: int): seq<Call>
    requires Mode(fr) != DrmNone ==> DirectDefined(fr, objectIndex)
  {
    if Mode(fr) == DrmNone then []
    else
      [Invoke(PrepareToRenderObject(objectIndex)), ClearColorAndDepth(ClearColorForObject(objectIndex))]
      + DirectEvents(fr, objectIndex, InstanceRangeForObject(objectIndex), PathIDsAreInstanced())
  }

  /** One iteration of the object loop. */
  function ObjectEvents(fr: Frame, objectIndex: int): seq<Call>
    requires Mode(fr) != DrmNone ==> DirectDefined(fr, objectIndex)
  {
    DirectPart(fr, objectIndex)
    + [Invoke(AntialiasObject(objectIndex)), Invoke(FinishAntialiasingObject(objectIndex))]
    + [Invoke(ResolveAAForObject(objectIndex))]
  }

  /** The first `n` iterations of the object loop. */
  function ObjectLoop(fr: Frame, n: nat): seq<Call>
    requires FrameDefined(fr) && n <= Objects(fr)
  {
    if n == 0 then [] else ObjectLoop(fr, n - 1) + ObjectEvents(fr, n - 1)
  }

  /** The body of the pass loop, without the pass's closing `resolve`. */
  function PassBody(fr: Frame): seq<Call>
    requires FrameDefined(fr)
  {
    (if Mode(fr) != DrmNone then [Invoke(PrepareForDirectRendering)] else []) + ObjectLoop(fr, Objects(fr))
  }

  /** The first `k` iterations of the pass loop. */
  function PassLoop(body: seq<Call>, k: nat): seq<Call> {
    if k == 0 then [] else PassLoop(body, k - 1) + (body + [Invoke(Resolve(k - 1))])
  }

  /** `renderAtlas`: nothing without mesh buffers. */
  function FrameEvents(fr: Frame): (r: seq<Call>)
    requires FrameDefined(fr)
    ensures |fr.meshBuffers| == 0 <==> r == []
  {
    if |fr.meshBuffers| == 0 then []
    else ClearDestEvents(fr) + [Invoke(PrepareForRendering)] + PassLoop(PassBody(fr), Passes(fr))
  }

  /**
   * A frame with mesh buffers starts with the atlas clear and
   * `prepareForRendering`, and, when it has passes, ends with the last pass's
   * `resolve`.
   */
  lemma FrameShape(fr: Frame)
    requires FrameDefined(fr) && |fr.meshBuffers| > 0
    ensures var e := FrameEvents(fr);
      && |e| >= 4 && e[..3] == ClearDestEvents(fr) && e[3] == Invoke(PrepareForRendering)
      && (Passes(fr) > 0 ==> e[|e| - 1] == Invoke(Resolve(Passes(fr) - 1)))
  {
    var head := ClearDestEvents(fr) + [Invoke(PrepareForRendering)];
    assert FrameEvents(fr) == head + PassLoop(PassBody(fr), Passes(fr));
    assert (head + PassLoop(PassBody(fr), Passes(fr)))[..3] == head[..3];
  }

  // ---------------------------------------------------------------------------
  // How often a frame reaches each strategy entry point.

  /** The entry points called once per visited object. */
  predicate IsPerObject(op: StrategyOp) {
    op.PrepareToRenderObject? || op.FinishDirectlyRenderingObject? || op.AntialiasObject?
    || op.FinishAntialiasingObject? || op.ResolveAAForObject?
  }

  /**
   * How often one object's iteration calls `op`: the three antialiasing
   * calls always, `prepareToRenderObject` when the strategy renders directly,
   * and `finishDirectlyRenderingObject` when it does and meshes are attached.
   */
  function CallsPerObject(fr: Frame, op: StrategyOp, objectIndex: int): nat {
    if op == AntialiasObject(objectIndex) || op == FinishAntialiasingObject(objectIndex)
       || op == ResolveAAForObject(objectIndex) then 1
    else if Mode(fr) != DrmNone && op == PrepareToRenderObject(objectIndex) then 1
    else if Mode(fr) != DrmNone && MeshesAttached(fr.meshBuffers, fr.meshes)
            && op == FinishDirectlyRenderingObject(objectIndex) then 1
    else 0
  }

  /** How often the first `n` iterations of the object loop call `op`. */
  function CallsPerObjectLoop(fr: Frame, op: StrategyOp, n: nat): nat {
    if IsPerObject(op) && 0 <= op.objectIndex < n then CallsPerObject(fr, op, op.objectIndex) else 0
  }

  /** How often one pass, apart from its closing `resolve`, calls `op`. */
  function CallsPerPass(fr: Frame, op: StrategyOp): nat {
    (if Mode(fr) != DrmNone && op == PrepareForDirectRendering then 1 else 0)
    + CallsPerObjectLoop(fr, op, Objects(fr))
  }

  lemma DirectEventsCalls(fr: Frame, objectIndex: int, instanceRange: Range, instanced: bool, op: StrategyOp)
    requires DirectDefined(fr, objectIndex)
    ensures Count(DirectEvents(fr, objectIndex, instanceRange, instanced), Invoked(op)) ==
      if MeshesAttached(fr.meshBuffers, fr.meshes) && !instanceRange.IsEmpty()
         && op == FinishDirectlyRenderingObject(objectIndex) then 1 else 0
  {
    if MeshesAttached(fr.meshBuffers, fr.meshes) && !instanceRange.IsEmpty() {
      var draws := DirectDraws(fr, InteriorRange(fr, objectIndex), CoverRange(fr, objectIndex), instanceRange, instanced);
      CountNone(draws, Invoked(op));
      CountLast(draws, Invoke(FinishDirectlyRenderingObject(objectIndex)), Invoked(op));
    }
  }

  lemma DirectPartCalls(fr: Frame, objectIndex: int, op: StrategyOp)
    requires Mode(fr) != DrmNone ==> DirectDefined(fr, objectIndex)
    ensures Count(DirectPart(fr, objectIndex), Invoked(op)) ==
      (if Mode(fr) != DrmNone && op == PrepareToRenderObject(objectIndex) then 1 else 0)
      + (if Mode(fr) != DrmNone && MeshesAttached(fr.meshBuffers, fr.meshes)
            && op == FinishDirectlyRenderingObject(objectIndex) then 1 else 0)
  {
    if Mode(fr) != DrmNone {
      var prepare := Invoke(PrepareToRenderObject(objectIndex));
      var clear := ClearColorAndDepth(ClearColorForObject(objectIndex));
      var de := DirectEvents(fr, objectIndex, InstanceRangeForObject(objectIndex), PathIDsAreInstanced());
      CountPair(prepare, clear, Invoked(op));
      DirectEventsCalls(fr, objectIndex, InstanceRangeForObject(objectIndex), PathIDsAreInstanced(), op);
      CountAppend([prepare, clear], de, Invoked(op));
    }
  }

  lemma ObjectEventsCalls(fr: Frame, objectIndex: int, op: StrategyOp)
    requires Mode(fr) != DrmNone ==> DirectDefined(fr, objectIndex)
    ensures Count(ObjectEvents(fr, objectIndex), Invoked(op)) == CallsPerObject(fr, op, objectIndex)
  {
    var d := DirectPart(fr, objectIndex);
    var a := Invoke(AntialiasObject(objectIndex));
    var f := Invoke(FinishAntialiasingObject(objectIndex));
    var r := Invoke(ResolveAAForObject(objectIndex));
    DirectPartCalls(fr, objectIndex, op);
    CountPair(a, f, Invoked(op));
    CountAppend(d, [a, f], Invoked(op));
    CountLast(d + [a, f], r, Invoked(op));
  }

  /** Only an iteration for the object an entry point names can call it. */
  lemma CallsPerObjectElsewhere(fr: Frame, op: StrategyOp, objectIndex: int)
    requires !(IsPerObject(op) && op.objectIndex == objectIndex)
    ensures CallsPerObject(fr, op, objectIndex) == 0
  {
  }

  lemma CallsPerObjectLoopStep(fr: Frame, op: StrategyOp, n: nat)
    requires n > 0
    ensures CallsPerObjectLoop(fr, op, n) == CallsPerObjectLoop(fr, op, n - 1) + CallsPerObject(fr, op, n - 1)
  {
    if !(IsPerObject(op) && op.objectIndex == n - 1) {
      CallsPerObjectElsewhere(fr, op, n - 1);
    }
  }

  /** The last iteration of the first `n` adds that object's calls. */
  lemma ObjectLoopStepCalls(fr: Frame, n: nat, op: StrategyOp)
    requires FrameDefined(fr) && 0 < n <= Objects(fr)
    ensures Count(ObjectLoop(fr, n), Invoked(op)) == Count(ObjectLoop(fr, n - 1), Invoked(op)) + CallsPerObject(fr, op, n - 1)
  {
    ObjectEventsCalls(fr, n - 1, op);
    CountAppend(ObjectLoop(fr, n - 1), ObjectEvents(fr, n - 1), Invoked(op));
  }

  lemma {:induction false} ObjectLoopCalls(fr: Frame, n: nat, op: StrategyOp)
    requires FrameDefined(fr) && n <= Objects(fr)
    ensures Count(ObjectLoop(fr, n), Invoked(op)) == CallsPerObjectLoop(fr, op, n)
  {
    if n > 0 {
      CallsPerObjectLoopStep(fr, op, n);
      ObjectLoopStepCalls(fr, n, op);
      ObjectLoopCalls(fr, n - 1, op);
    }
  }

  lemma PassBodyCalls(fr: Frame, op: StrategyOp)
    requires FrameDefined(fr)
    ensures Count(PassBody(fr), Invoked(op)) == CallsPerPass(fr, op)
  {
    var prefix := if Mode(fr) != DrmNone then [Invoke(PrepareForDirectRendering)] else [];
    ObjectLoopCalls(fr, Objects(fr), op);
    CountAppend(prefix, ObjectLoop(fr, Objects(fr)), Invoked(op));
    if prefix != [] {
      CountLast([], prefix[0], Invoked(op));
      assert prefix == [] + [prefix[0]];
    }
  }

  /** `k * c`, built by repeated addition so that the pass loop adds one `c` per pass. */
  function Times(k: nat, c: nat): nat {
    if k == 0 then 0 else Times(k - 1, c) + c
  }

  lemma {:induction false} TimesIsProduct(k: nat, c: nat)
    ensures Times(k, c) == k * c
  {
    if k > 0 {
      TimesIsProduct(k - 1, c);
    }
  }

  /** The last pass adds the pass body's calls and its own `resolve`. */
  lemma PassLoopStepCalls(body: seq<Call>, k: nat, op: StrategyOp)
    requires k > 0
    ensures Count(PassLoop(body, k), Invoked(op)) ==
      Count(PassLoop(body, k - 1), Invoked(op)) + Count(body, Invoked(op)) + if op == Resolve(k - 1) then 1 else 0
  {
    CountLast(body, Invoke(Resolve(k - 1)), Invoked(op));
    CountAppend(PassLoop(body, k - 1), body + [Invoke(Resolve(k - 1))], Invoked(op));
  }

  /** `k` passes repeat the body's calls `k` times and add one `resolve(p)` for each `p < k`. */
  lemma {:induction false} PassLoopCalls(body: seq<Call>, k: nat, op: StrategyOp)
    ensures Count(PassLoop(body, k), Invoked(op)) ==
      Times(k, Count(body, Invoked(op))) + if op.Resolve? && 0 <= op.pass < k then 1 else 0
  {
    if k > 0 {
      PassLoopStepCalls(body, k, op);
      PassLoopCalls(body, k - 1, op);
    }
  }

  /**
   * Every call a frame makes into its strategy, counted: none without mesh
   * buffers; otherwise `prepareForRendering` once, `resolve(p)` once for each
   * pass `p`, and in every pass `prepareForDirectRendering` once if the
   * strategy renders directly, plus each object's calls once per visited
   * object.
   */
  lemma FrameStrategyCalls(fr: Frame, op: StrategyOp)
    requires FrameDefined(fr)
    ensures Count(FrameEvents(fr), Invoked(op)) ==
      if |fr.meshBuffers| == 0 then 0
      else
        (if op == PrepareForRendering then 1 else 0)
        + Passes(fr) * CallsPerPass(fr, op)
        + (if op.Resolve? && 0 <= op.pass < Passes(fr) then 1 else 0)
  {
    if |fr.meshBuffers| > 0 {
      var head := ClearDestEvents(fr) + [Invoke(PrepareForRendering)];
      CountNone(ClearDestEvents(fr), Invoked(op));
      CountLast(ClearDestEvents(fr), Invoke(PrepareForRendering), Invoked(op));
      PassBodyCalls(fr, op);
      PassLoopCalls(PassBody(fr), Passes(fr), op);
      TimesIsProduct(Passes(fr), CallsPerPass(fr, op));
      CountAppend(head, PassLoop(PassBody(fr), Passes(fr)), Invoked(op));
    }
  }

  lemma DirectDrawsCount(fr: Frame, interior: Range, cover: Range, instanceRange: Range, instanced: bool)
    ensures var d := DirectDraws(fr, interior, cover, instanceRange, instanced);
      && Count(d, Draws) == (if Mode(fr) == DrmConservative then 1 else 2)
      && (!instanced ==> forall k :: 0 <= k < |d| ==> !d[k].DrawElementsInstanced? && !d[k].DrawArraysInstanced?)
  {
    var head := [BindVertexArray(fr.interiorVAO), InteriorDraw(interior, instanceRange, instanced)];
    CountPair(head[0], head[1], Draws);
    if Mode(fr) == DrmConservative {
      CountLast(head + [], BindVertexArray(0), Draws);
      assert head + [] == head;
    } else {
      var curves := [BindVertexArray(fr.curveVAO), CurveDraw(cover, instanceRange, instanced)];
      CountPair(curves[0], curves[1], Draws);
      CountAppend(head, curves, Draws);
      CountLast(head + curves, BindVertexArray(0), Draws);
    }
  }

  /**
   * With path IDs never instanced, direct rendering draws only with the
   * non-instanced calls: one interior draw for a conservative strategy, and
   * an interior and a curve draw otherwise.
   */
  lemma DirectDrawCount(fr: Frame, objectIndex: int)
    requires DirectDefined(fr, objectIndex) && MeshesAttached(fr.meshBuffers, fr.meshes)
    ensures var e := DirectEvents(fr, objectIndex, InstanceRangeForObject(objectIndex), PathIDsAreInstanced());
      && Count(e, Draws) == (if Mode(fr) == DrmConservative then 1 else 2)
      && forall k :: 0 <= k < |e| ==> !e[k].DrawElementsInstanced? && !e[k].DrawArraysInstanced?
  {
    var d := DirectDraws(fr, InteriorRange(fr, objectIndex), CoverRange(fr, objectIndex),
                         InstanceRangeForObject(objectIndex), PathIDsAreInstanced());
    DirectDrawsCount(fr, InteriorRange(fr, objectIndex), CoverRange(fr, objectIndex),
                     InstanceRangeForObject(objectIndex), PathIDsAreInstanced());
    CountLast(d, Invoke(FinishDirectlyRenderingObject(objectIndex)), Draws);
  }

  /**
   * The curve branch of `directlyRenderObject` inside an object's iteration:
   * a strategy that renders directly in colour follows the interior draw with
   * the curve vertex array and six vertices for each B-quad of the object's
   * cover range.
   */
  lemma ColorModeDrawsCurves(fr: Frame, objectIndex: int)
    requires Mode(fr) == DrmColor && DirectDefined(fr, objectIndex) && MeshesAttached(fr.meshBuffers, fr.meshes)
    ensures var interior := InteriorRange(fr, objectIndex);
      var cover := CoverRange(fr, objectIndex);
      var draws := [BindVertexArray(fr.interiorVAO), DrawElements(interior.Length(), interior.start),
                    BindVertexArray(fr.curveVAO), DrawArrays(cover.start * 6, cover.Length() * 6), BindVertexArray(0)];
      ObjectEvents(fr, objectIndex) ==
        [Invoke(PrepareToRenderObject(objectIndex)), ClearColorAndDepth(ClearColorForObject(objectIndex))]
        + (draws + [Invoke(FinishDirectlyRenderingObject(objectIndex))])
        + [Invoke(AntialiasObject(objectIndex)), Invoke(FinishAntialiasingObject(objectIndex))]
        + [Invoke(ResolveAAForObject(objectIndex))]
  {
    var interior := InteriorRange(fr, objectIndex);
    var cover := CoverRange(fr, objectIndex);
    var instanceRange := InstanceRangeForObject(objectIndex);
    var finish := Invoke(FinishDirectlyRenderingObject(objectIndex));
    var d := DirectDraws(fr, interior, cover, instanceRange, false);
    assert DirectEvents(fr, objectIndex, instanceRange, false) == d + [finish];
    var prepare := [Invoke(PrepareToRenderObject(objectIndex)), ClearColorAndDepth(ClearColorForObject(objectIndex))];
    assert DirectPart(fr, objectIndex) == prepare + (d + [finish]);
    ColorDirectDraws(fr, interior, cover, instanceRange);
  }

  /** Non-instanced direct draws in colour: interior triangles, then curve patches, then the vertex array unbound. */
  lemma ColorDirectDraws(fr: Frame, interior: Range, cover: Range, instanceRange: Range)
    requires Mode(fr) == DrmColor
    ensures DirectDraws(fr, interior, cover, instanceRange, false) ==
      [BindVertexArray(fr.interiorVAO), DrawElements(interior.Length(), interior.start),
       BindVertexArray(fr.curveVAO), DrawArrays(cover.start * 6, cover.Length() * 6), BindVertexArray(0)]
  {
    var head := [BindVertexArray(fr.interiorVAO), InteriorDraw(interior, instanceRange, false)];
    var curves := [BindVertexArray(fr.curveVAO), CurveDraw(cover, instanceRange, false)];
    assert DirectDraws(fr, interior, cover, instanceRange, false) == head + curves + [BindVertexArray(0)];
  }

  /** One curve draw per object iteration exactly when the strategy renders directly in colour with meshes attached. */
  function CurveDrawsPerObject(fr: Frame): nat {
    if Mode(fr) == DrmColor && MeshesAttached(fr.meshBuffers, fr.meshes) then 1 else 0
  }

  lemma DirectDrawsCurveCount(fr: Frame, interior: Range, cover: Range, instanceRange: Range, instanced: bool)
    ensures Count(DirectDraws(fr, interior, cover, instanceRange, instanced), CurveDraws) ==
      if Mode(fr) == DrmConservative then 0 else 1
  {
    var head := [BindVertexArray(fr.interiorVAO), InteriorDraw(interior, instanceRange, instanced)];
    CountPair(head[0], head[1], CurveDraws);
    if Mode(fr) == DrmConservative {
      CountLast(head + [], BindVertexArray(0), CurveDraws);
      assert head + [] == head;
    } else {
      var curves := [BindVertexArray(fr.curveVAO), CurveDraw(cover, instanceRange, instanced)];
      CountPair(curves[0], curves[1], CurveDraws);
      CountAppend(head, curves, CurveDraws);
      CountLast(head + curves, BindVertexArray(0), CurveDraws);
    }
  }

  lemma ObjectCurveDraws(fr: Frame, objectIndex: int)
    requires Mode(fr) != DrmNone ==> DirectDefined(fr, objectIndex)
    ensures Count(ObjectEvents(fr, objectIndex), CurveDraws) == CurveDrawsPerObject(fr)
  {
    var d := DirectPart(fr, objectIndex);
    var a := Invoke(AntialiasObject(objectIndex));
    var f := Invoke(FinishAntialiasingObject(objectIndex));
    var r := Invoke(ResolveAAForObject(objectIndex));
    CountPair(a, f, CurveDraws);
    CountAppend(d, [a, f], CurveDraws);
    CountLast(d + [a, f], r, CurveDraws);
    if Mode(fr) == DrmNone {
      CountNone(d, CurveDraws);
    } else {
      var head := [Invoke(PrepareToRenderObject(objectIndex)), ClearColorAndDepth(ClearColorForObject(objectIndex))];
      var e := DirectEvents(fr, objectIndex, InstanceRangeForObject(objectIndex), PathIDsAreInstanced());
      CountPair(head[0], head[1], CurveDraws);
      CountAppend(head, e, CurveDraws);
      if MeshesAttached(fr.meshBuffers, fr.meshes) {
        var draws := DirectDraws(fr, InteriorRange(fr, objectIndex), CoverRange(fr, objectIndex),
                                 InstanceRangeForObject(objectIndex), PathIDsAreInstanced());
        DirectDrawsCurveCount(fr, InteriorRange(fr, objectIndex), CoverRange(fr, objectIndex),
                              InstanceRangeForObject(objectIndex), PathIDsAreInstanced());
        CountLast(draws, Invoke(FinishDirectlyRenderingObject(objectIndex)), CurveDraws);
      } else {
        CountNone(e, CurveDraws);
      }
    }
  }

  lemma {:induction false} ObjectLoopCurveDraws(fr: Frame, n: nat)
    requires FrameDefined(fr) && n <= Objects(fr)
    ensures Count(ObjectLoop(fr, n), CurveDraws) == Times(n, CurveDrawsPerObject(fr))
  {
    if n > 0 {
      ObjectLoopCurveStep(fr, n);
      ObjectLoopCurveDraws(fr, n - 1);
    }
  }

  lemma ObjectLoopCurveStep(fr: Frame, n: nat)
    requires FrameDefined(fr) && 0 < n <= Objects(fr)
    ensures Count(ObjectLoop(fr, n), CurveDraws) == Count(ObjectLoop(fr, n - 1), CurveDraws) + CurveDrawsPerObject(fr)
  {
    ObjectCurveDraws(fr, n - 1);
    CountAppend(ObjectLoop(fr, n - 1), ObjectEvents(fr, n - 1), CurveDraws);
  }

  lemma {:induction false} PassLoopCurveDraws(body: seq<Call>, k: nat)
    ensures Count(PassLoop(body, k), CurveDraws) == Times(k, Count(body, CurveDraws))
  {
    if k > 0 {
      PassLoopCurveStep(body, k);
      PassLoopCurveDraws(body, k - 1);
    }
  }

  lemma PassLoopCurveStep(body: seq<Call>, k: nat)
    requires k > 0
    ensures Count(PassLoop(body, k), CurveDraws) == Count(PassLoop(body, k - 1), CurveDraws) + Count(body, CurveDraws)
  {
    CountLast(body, Invoke(Resolve(k - 1)), CurveDraws);
    CountAppend(PassLoop(body, k - 1), body + [Invoke(Resolve(k - 1))], CurveDraws);
  }

  /** One pass draws one curve per visited object when the strategy renders curves, and none otherwise. */
  lemma PassBodyCurveDraws(fr: Frame)
    requires FrameDefined(fr)
    ensures Count(PassBody(fr), CurveDraws) == Times(Objects(fr), CurveDrawsPerObject(fr))
  {
    var prefix := if Mode(fr) != DrmNone then [Invoke(PrepareForDirectRendering)] else [];
    CountNone(prefix, CurveDraws);
    ObjectLoopCurveDraws(fr, Objects(fr));
    CountAppend(prefix, ObjectLoop(fr, Objects(fr)), CurveDraws);
  }

  /**
   * The curve draws of a whole frame: a strategy that renders directly in
   * colour gets one for every visited object in every pass, once meshes are
   * attached; every other frame draws no curves.
   */
  lemma FrameCurveDraws(fr: Frame)
    requires FrameDefined(fr)
    ensures Count(FrameEvents(fr), CurveDraws) ==
      if |fr.meshBuffers| > 0 && CurveDrawsPerObject(fr) == 1 then Passes(fr) * Objects(fr) else 0
  {
    if |fr.meshBuffers| > 0 {
      var head := ClearDestEvents(fr) + [Invoke(PrepareForRendering)];
      var loop := PassLoop(PassBody(fr), Passes(fr));
      var c := CurveDrawsPerObject(fr);
      CountNone(head, CurveDraws);
      PassBodyCurveDraws(fr);
      PassLoopCurveDraws(PassBody(fr), Passes(fr));
      assert FrameEvents(fr) == head + loop;
      CountAppend(head, loop, CurveDraws);
      TimesOfIndicator(Passes(fr), Objects(fr), c);
    }
  }

  /** `k` rounds of `n` items each counting `c` (0 or 1): `k * n` when `c` is 1, else nothing. */
  lemma TimesOfIndicator(k: nat, n: nat, c: nat)
    requires c <= 1
    ensures Times(k, Times(n, c)) == if c == 1 then k * n else 0
  {
    TimesIsProduct(n, c);
    TimesIsProduct(k, n * c);
    if c == 0 {
      assert n * c == 0;
    } else {
      assert n * c == n;
    }
  }

  /**
   * A frame under an XCAA strategy never draws curves: MCAA renders directly
   * but conservatively, and StencilAAA and the adaptive strategy do not
   * render directly.
   */
  lemma XcaaFramesDrawNoCurves(fr: Frame, kind: StrategyKind, basePassCount: nat)
    requires FrameDefined(fr) && fr.strategy == XcaaProfile(kind, basePassCount)
    ensures Count(FrameEvents(fr), CurveDraws) == 0
    ensures Mode(fr) != DrmNone <==> kind == Single(Mcaa)
  {
    FrameCurveDraws(fr);
  }
}
