/**
 * `AdaptiveStencilMeshAAAStrategy` of xcaa-strategy.cpp: a strategy that owns
 * one MCAA and one StencilAAA strategy, sets both up, and forwards each
 * per-pass and per-object call to the stencil strategy when the renderer needs
 * stencilling and to the mesh strategy otherwise. Its contracts reuse the step
 * functions that specify the inner strategies, so "forwards to exactly that
 * one" is stated as: the chosen strategy takes that step, the other is left
 * as it was.
 */
module AdaptiveStrategy {
  import opened Geometry
  import opened Trace
  import opened XcaaStrategies

  /** The entry points the inner strategies inherit from the base strategy class. */
  predicate IsInheritedOp(op: StrategyOp) {
    op.PrepareForRendering? || op.PrepareForDirectRendering? || op.PrepareToRenderObject? || op.Resolve?
  }

  class AdaptiveStencilMeshStrategy {
    const meshStrategy: XcaaStrategy
    const stencilStrategy: XcaaStrategy

    predicate Valid() {
      meshStrategy.variant == Mcaa && stencilStrategy.variant == StencilAaa
    }

    /** Both inner strategies are built with the adaptive strategy's subpixel mode and supersample scale. */
    constructor(subpixelAA: bool, supersampleScale: Size)
      ensures Valid()
      ensures fresh(meshStrategy) && fresh(stencilStrategy)
      ensures meshStrategy.Cfg() == Config(Mcaa, subpixelAA, supersampleScale)
      ensures stencilStrategy.Cfg() == Config(StencilAaa, subpixelAA, supersampleScale)
      ensures meshStrategy.Snapshot() == INITIAL_FIELDS && stencilStrategy.Snapshot() == INITIAL_FIELDS
    {
      meshStrategy := new XcaaStrategy(Mcaa, subpixelAA, supersampleScale);
      stencilStrategy := new XcaaStrategy(StencilAaa, subpixelAA, supersampleScale);
    }

    /** `getAppropriateStrategy`: the stencil strategy exactly when the renderer needs stencilling. */
    function AppropriateStrategy(host: Host): (s: XcaaStrategy)
      requires Valid()
      ensures s == meshStrategy || s == stencilStrategy
      ensures s.variant == StencilAaa <==> host.needsStencil
    {
      if host.needsStencil then stencilStrategy else meshStrategy
    }

    /** The inner strategy that `host` does not select. */
    function OtherStrategy(host: Host): (s: XcaaStrategy)
      requires Valid()
      ensures s != AppropriateStrategy(host)
      ensures s == meshStrategy || s == stencilStrategy
    {
      if host.needsStencil then meshStrategy else stencilStrategy
    }

    /** `init`: the mesh strategy's, then the stencil strategy's. */
    method Init(gl: CommandStream)
      requires Valid()
      modifies gl
      ensures gl.log == old(gl.log) + [Inherited(Mcaa, StrategyOp.Init), Inherited(StencilAaa, StrategyOp.Init)]
      ensures gl.names == old(gl.names)
    {
      meshStrategy.Inherit(gl, StrategyOp.Init);
      stencilStrategy.Inherit(gl, StrategyOp.Init);
    }

    /** `attachMeshes`: the mesh strategy attaches first, then the stencil strategy. */
    method AttachMeshes(gl: CommandStream, host: Host)
      requires Valid()
      modifies meshStrategy, stencilStrategy, gl
      ensures var first := AttachStep(meshStrategy.Cfg(), old(meshStrategy.Snapshot()), host, old(gl.names));
        var second := AttachStep(stencilStrategy.Cfg(), old(stencilStrategy.Snapshot()), host, old(gl.names) + first.created);
        && meshStrategy.Snapshot() == first.fields
        && stencilStrategy.Snapshot() == second.fields
        && gl.log == old(gl.log) + first.events + second.events
        && gl.names == old(gl.names) + first.created + second.created
    {
      meshStrategy.AttachMeshes(gl, host);
      stencilStrategy.AttachMeshes(gl, host);
    }

    /** `setFramebufferSize`: the mesh strategy first, then the stencil strategy. */
    method SetFramebufferSize(gl: CommandStream, host: Host)
      requires Valid()
      modifies meshStrategy, stencilStrategy, gl
      ensures var first := FramebufferSizeStep(meshStrategy.Cfg(), old(meshStrategy.Snapshot()), host, old(gl.names));
        var second := FramebufferSizeStep(stencilStrategy.Cfg(), old(stencilStrategy.Snapshot()), host, old(gl.names) + first.created);
        && meshStrategy.Snapshot() == first.fields
        && stencilStrategy.Snapshot() == second.fields
        && gl.log == old(gl.log) + first.events + second.events
        && gl.names == old(gl.names) + first.created + second.created
    {
      meshStrategy.SetFramebufferSize(gl, host);
      stencilStrategy.SetFramebufferSize(gl, host);
    }

    /** `prepareForRendering`, `prepareForDirectRendering`, `prepareToRenderObject`, `resolve`: forwarded. */
    method Forward(gl: CommandStream, host: Host, op: StrategyOp)
      requires Valid() && IsInheritedOp(op)
      modifies gl
      ensures gl.log == old(gl.log) + [Inherited(if host.needsStencil then StencilAaa else Mcaa, op)]
      ensures gl.names == old(gl.names)
    {
      AppropriateStrategy(host).Inherit(gl, op);
    }

    /** `antialiasObject`: forwarded; only the chosen strategy's path-bounds textures change. */
    method AntialiasObject(gl: CommandStream, host: Host, objectIndex: int, boundsLength: nat)
      requires Valid()
      requires AntialiasDefined(AppropriateStrategy(host).Cfg(), AppropriateStrategy(host).Snapshot(), host, objectIndex)
      modifies meshStrategy, stencilStrategy, gl
      ensures var s := AppropriateStrategy(host);
        var step := AntialiasStep(s.Cfg(), old(s.Snapshot()), host, objectIndex, boundsLength, old(gl.names));
        && s.Snapshot() == step.fields
        && gl.log == old(gl.log) + step.events
        && gl.names == old(gl.names) + step.created
      ensures OtherStrategy(host).Snapshot() == old(OtherStrategy(host).Snapshot())
    {
      AppropriateStrategy(host).AntialiasObject(gl, host, objectIndex, boundsLength);
    }

    /** `finishAntialiasingObject`: forwarded. */
    method FinishAntialiasingObject(gl: CommandStream, host: Host, objectIndex: int)
      requires Valid()
      modifies gl
      ensures gl.log == old(gl.log) + FinishAAEvents(AppropriateStrategy(host).Cfg(), AppropriateStrategy(host).Snapshot(), host)
      ensures gl.names == old(gl.names)
    {
      AppropriateStrategy(host).FinishAntialiasingObject(gl, host, objectIndex);
    }

    /** `resolveAAForObject`: forwarded. */
    method ResolveAAForObject(gl: CommandStream, host: Host, objectIndex: int)
      requires Valid()
      modifies gl
      ensures gl.log == old(gl.log) + ResolveEvents(AppropriateStrategy(host).Cfg(), AppropriateStrategy(host).Snapshot(), host)
      ensures gl.names == old(gl.names)
    {
      AppropriateStrategy(host).ResolveAAForObject(gl, host, objectIndex);
    }
  }
}
