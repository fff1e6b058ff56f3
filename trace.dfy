/**
 * The abstract GPU command stream. Every GL call the core issues is modelled
 * as an event appended to one ordered log (commands issued earlier execute
 * earlier); object creation (`glCreate*`, `glGen*`, `make_shared` of a GPU
 * texture) mints a fresh non-zero name. Calls the renderer makes into its
 * antialiasing strategy are events too, so call orders can be stated exactly.
 */
module Trace {
  import opened Geometry

  /** A GL object name; 0 is "no object". */
  type Handle = nat

  /** The two concrete XCAA strategies. */
  datatype XcaaVariant = Mcaa | StencilAaa

  /** The entry points of the antialiasing-strategy interface. */
  datatype StrategyOp =
    | Init
    | AttachMeshes
    | SetFramebufferSize
    | PrepareForRendering
    | PrepareForDirectRendering
    | PrepareToRenderObject(objectIndex: int)
    | FinishDirectlyRenderingObject(objectIndex: int)
    | AntialiasObject(objectIndex: int)
    | FinishAntialiasingObject(objectIndex: int)
    | ResolveAAForObject(objectIndex: int)
    | Resolve(pass: int)

  datatype ShaderStage = VertexStage | FragmentStage

  /** What a uniform is set to; float payloads (matrices, colours) are not modelled. */
  datatype UniformValue = Ints(values: seq<int>) | FloatPayload

  datatype Call =
    // renderer -> strategy interface
    | Invoke(op: StrategyOp)
    // an XCAA strategy's inherited entry point, whose body is outside this model
    | Inherited(variant: XcaaVariant, op: StrategyOp)
    // framebuffers, viewport, scissor, clears
    | BindFramebuffer(framebuffer: Handle)
    | Viewport(size: Size)
    | Scissor(size: Size)
    | DisableScissor
    | ClearColorAndDepth(color: Color)
    | ClearColorOnly(color: Color)
    | DisableDepthAndBlend
    // textures
    | TexImage(texture: Handle, size: Size)
    | DeleteTexture(texture: Handle)
    | Upload(texture: Handle, length: nat)
    | BindTexture(texture: Handle)
    // programs, vertex arrays, uniforms
    | UseResolveProgram(subpixel: bool)
    | BindVertexArray(vao: Handle)
    | SetUniform(location: int, value: UniformValue)
    // a uniform looked up by its name in a program's uniform map, named here by its uniform ID
    | SetNamedUniform(uniform: nat, value: UniformValue)
    | SetSide(side: int)
    // draws
    | DrawElements(count: int, firstIndex: int)
    | DrawArrays(first: int, count: int)
    | DrawElementsInstanced(indexCount: int, instances: int)
    | DrawArraysInstanced(count: int, instances: int)
    | AttribOffset(firstInstance: int)
    // shader building: a shader is compiled from its stage and its index in the generated source tables
    | CompileShader(stage: ShaderStage, index: nat)
    | DeleteShader(shader: Handle)
    | AttachShader(program: Handle, shader: Handle)
    | LinkProgram(program: Handle)
    | DeleteProgram(program: Handle)

  /** The kinds of events the model counts. */
  datatype Pattern =
    | Compiles
    | Links
    | Draws
    | CurveDraws
    | Invoked(op: StrategyOp)

  predicate Matches(c: Call, p: Pattern) {
    match p
    case Compiles => c.CompileShader?
    case Links => c.LinkProgram?
    case Draws => c.DrawElements? || c.DrawArrays? || c.DrawElementsInstanced? || c.DrawArraysInstanced?
    case CurveDraws => c.DrawArrays? || c.DrawArraysInstanced?
    case Invoked(op) => c == Invoke(op)
  }

  /** The number of events of `s` that match `p`. */
  function Count(s: seq<Call>, p: Pattern): nat
  {
    CountFirst(s, |s|, p)
  }

  /** The number of the first `n` events of `s` that match `p`. */
  function CountFirst(s: seq<Call>, n: nat, p: Pattern): nat
    requires n <= |s|
  {
    if n == 0 then 0 else CountFirst(s, n - 1, p) + (if Matches(s[n - 1], p) then 1 else 0)
  }

  /** Events appended after the first `n` do not change their count. */
  lemma {:induction false} CountFirstOfAppend(a: seq<Call>, b: seq<Call>, n: nat, p: Pattern)
    requires n <= |a|
    ensures CountFirst(a + b, n, p) == CountFirst(a, n, p)
  {
    if n > 0 {
      CountFirstOfAppend(a, b, n - 1, p);
    }
  }

  lemma {:induction false} CountFirstPastAppend(a: seq<Call>, b: seq<Call>, k: nat, p: Pattern)
    requires k <= |b|
    ensures CountFirst(a + b, |a| + k, p) == Count(a, p) + CountFirst(b, k, p)
  {
    if k == 0 {
      CountFirstOfAppend(a, b, |a|, p);
    } else {
      CountFirstPastAppend(a, b, k - 1, p);
    }
  }

  lemma CountAppend(a: seq<Call>, b: seq<Call>, p: Pattern)
    ensures Count(a + b, p) == Count(a, p) + Count(b, p)
  {
    CountFirstPastAppend(a, b, |b|, p);
  }

  /** Regrouping of appended call logs, which the solver does not find unaided inside larger proofs. */
  lemma AppendAssociates(a: seq<Call>, b: seq<Call>, c: seq<Call>)
    ensures a + b + c == a + (b + c)
  {
  }

  lemma Append4Associates(log: seq<Call>, a: seq<Call>, b: seq<Call>, c: seq<Call>, d: seq<Call>)
    ensures log + a + b + c + d == log + (a + b + c + d)
  {
  }

  lemma ConcatAssociates(log: seq<Call>, a: seq<Call>, b: seq<Call>, c: seq<Call>, d: seq<Call>, e: seq<Call>)
    ensures log + a + b + c + d + e == log + (a + b + c + (d + e))
  {
  }

  lemma {:induction false} CountFirstNone(s: seq<Call>, n: nat, p: Pattern)
    requires n <= |s|
    requires forall i :: 0 <= i < n ==> !Matches(s[i], p)
    ensures CountFirst(s, n, p) == 0
  {
    if n > 0 {
      CountFirstNone(s, n - 1, p);
    }
  }

  lemma CountNone(s: seq<Call>, p: Pattern)
    requires forall i :: 0 <= i < |s| ==> !Matches(s[i], p)
    ensures Count(s, p) == 0
  {
    CountFirstNone(s, |s|, p);
  }

  lemma CountSingle(c: Call, p: Pattern)
    ensures Count([c], p) == if Matches(c, p) then 1 else 0
  {
    assert CountFirst([c], 0, p) == 0;
  }

  lemma CountLast(s: seq<Call>, c: Call, p: Pattern)
    ensures Count(s + [c], p) == Count(s, p) + if Matches(c, p) then 1 else 0
  {
    CountAppend(s, [c], p);
    CountSingle(c, p);
  }

  lemma CountPair(c: Call, d: Call, p: Pattern)
    ensures Count([c, d], p) == (if Matches(c, p) then 1 else 0) + (if Matches(d, p) then 1 else 0)
  {
    assert [c, d] == [c] + [d];
    CountLast([c], d, p);
    CountSingle(c, p);
  }

  /**
   * The GL context as the core sees it: the log of issued commands and the
   * number of object names handed out so far.
   */
  class CommandStream {
    var log: seq<Call>
    var names: nat

    constructor()
      ensures log == [] && names == 0
    {
      log := [];
      names := 0;
    }

    method Emit(c: Call)
      modifies this
      ensures log == old(log) + [c] && names == old(names)
    {
      log := log + [c];
    }

    method EmitAll(cs: seq<Call>)
      modifies this
      ensures log == old(log) + cs && names == old(names)
    {
      log := log + cs;
    }

    /** Creates a GL object: its name is non-zero and larger than every name handed out before. */
    method Create() returns (h: Handle)
      modifies this
      ensures h == old(names) + 1 && names == h && log == old(log)
    {
      names := names + 1;
      h := names;
    }
  }
}
