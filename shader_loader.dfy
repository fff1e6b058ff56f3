/**
 * The shader program table (shader-loader.cpp): programs whose uniform and
 * attribute location tables use -1 for "absent", and the manager that builds
 * every shader and program once, fail-fast, and keeps the programs that
 * linked. Compilation, linking and location lookup are an abstract oracle.
 */
module ShaderLoader {
  import opened Trace

  /** The uniforms the core refers to, in the order that fixes their IDs. */
  datatype UniformName =
    | UFramebufferSize | UTexScale | UTransform | UTransformST | UTransformExt
    | UEmboldenAmount | UGammaLUT | UBGColor | UFGColor | UAreaLUT
    | UPathColors | UPathColorsDimensions
    | UPathTransformST | UPathTransformSTDimensions
    | UPathTransformExt | UPathTransformExtDimensions
    | UPathBounds | UAAAlpha | UAAAlphaDimensions | UMulticolor | USide

  const UNIFORM_COUNT: nat := 21

  function UniformId(u: UniformName): (id: nat)
    ensures id < UNIFORM_COUNT
  {
    match u
    case UFramebufferSize => 0
    case UTexScale => 1
    case UTransform => 2
    case UTransformST => 3
    case UTransformExt => 4
    case UEmboldenAmount => 5
    case UGammaLUT => 6
    case UBGColor => 7
    case UFGColor => 8
    case UAreaLUT => 9
    case UPathColors => 10
    case UPathColorsDimensions => 11
    case UPathTransformST => 12
    case UPathTransformSTDimensions => 13
    case UPathTransformExt => 14
    case UPathTransformExtDimensions => 15
    case UPathBounds => 16
    case UAAAlpha => 17
    case UAAAlphaDimensions => 18
    case UMulticolor => 19
    case USide => 20
  }

  /** The vertex attributes the core refers to, in the order that fixes their IDs. */
  datatype AttributeName =
    | APosition | AVertexID | APathID | ATessCoord
    | ARect | AUV | ADUVDX | ADUVDY | ASignMode
    | AFromPosition | ACtrlPosition | AToPosition
    | AFromNormal | ACtrlNormal | AToNormal

  const ATTRIBUTE_COUNT: nat := 15

  function AttributeId(a: AttributeName): (id: nat)
    ensures id < ATTRIBUTE_COUNT
  {
    match a
    case APosition => 0
    case AVertexID => 1
    case APathID => 2
    case ATessCoord => 3
    case ARect => 4
    case AUV => 5
    case ADUVDX => 6
    case ADUVDY => 7
    case ASignMode => 8
    case AFromPosition => 9
    case ACtrlPosition => 10
    case AToPosition => 11
    case AFromNormal => 12
    case ACtrlNormal => 13
    case AToNormal => 14
  }

  /** `PathfinderShaderProgram`: a GL program name and its two location tables. */
  class ShaderProgram {
    var program: Handle
    const uniforms: array<int>
    const attributes: array<int>

    ghost predicate Valid()
      reads this
    {
      uniforms.Length == UNIFORM_COUNT && attributes.Length == ATTRIBUTE_COUNT && uniforms != attributes
    }

    /** No program yet and every uniform absent; the attribute table is left uninitialised. */
    constructor()
      ensures Valid() && program == 0
      ensures fresh(uniforms) && fresh(attributes)
      ensures forall id :: 0 <= id < UNIFORM_COUNT ==> uniforms[id] == -1
    {
      program := 0;
      uniforms := new int[UNIFORM_COUNT];
      attributes := new int[ATTRIBUTE_COUNT];
      new;
      var i := 0;
      while i < UNIFORM_COUNT
        invariant 0 <= i <= UNIFORM_COUNT
        invariant forall j :: 0 <= j < i ==> uniforms[j] == -1
        modifies uniforms
      {
        uniforms[i] := -1;
        i := i + 1;
      }
    }

    /** `hasUniform`: false outside the table, else whether the slot holds a location. */
    predicate HasUniform(id: int)
      requires Valid()
      reads this, uniforms
    {
      0 <= id < uniforms.Length && uniforms[id] != -1
    }

    predicate HasAttribute(id: int)
      requires Valid()
      reads this, attributes
    {
      0 <= id < attributes.Length && attributes[id] != -1
    }

    /** `getUniform`: -1 outside the table, else the stored location; -1 exactly when the uniform is absent. */
    function GetUniform(id: int): (location: int)
      requires Valid()
      reads this, uniforms
      ensures !(0 <= id < UNIFORM_COUNT) ==> location == -1
      ensures location != -1 <==> HasUniform(id)
    {
      if id < 0 || id >= uniforms.Length then -1 else uniforms[id]
    }

    /** `getAttribute`: -1 outside the table, else the stored location; -1 exactly when the attribute is absent. */
    function GetAttribute(id: int): (location: int)
      requires Valid()
      reads this, attributes
      ensures !(0 <= id < ATTRIBUTE_COUNT) ==> location == -1
      ensures location != -1 <==> HasAttribute(id)
    {
      if id < 0 || id >= attributes.Length then -1 else attributes[id]
    }

    /**
     * `load`: creates a program, attaches both shaders and links. A failed
     * link deletes the program, resets its name to 0 and leaves both tables
     * as they were; a successful one fills every slot of both tables from
     * the location lookups.
     */
    method Load(gl: CommandStream, vertexShader: Handle, fragmentShader: Handle, linkOk: bool,
                uniformLocations: seq<int>, attributeLocations: seq<int>) returns (ok: bool)
      requires Valid()
      requires |uniformLocations| == UNIFORM_COUNT && |attributeLocations| == ATTRIBUTE_COUNT
      modifies this, uniforms, attributes, gl
      ensures Valid()
      ensures ok == linkOk
      ensures gl.names == old(gl.names) + 1
      ensures gl.log == old(gl.log) + LoadEvents(gl.names, vertexShader, fragmentShader, linkOk)
      ensures ok ==> program == gl.names && uniforms[..] == uniformLocations && attributes[..] == attributeLocations
      ensures !ok ==> program == 0 && uniforms[..] == old(uniforms[..]) && attributes[..] == old(attributes[..])
    {
      program := gl.Create();
      gl.Emit(AttachShader(program, vertexShader));
      gl.Emit(AttachShader(program, fragmentShader));
      gl.Emit(LinkProgram(program));
      if !linkOk {
        gl.Emit(DeleteProgram(program));
        program := 0;
        return false;
      }
      var i := 0;
      while i < UNIFORM_COUNT
        invariant 0 <= i <= UNIFORM_COUNT
        invariant forall j :: 0 <= j < i ==> uniforms[j] == uniformLocations[j]
        modifies uniforms
      {
        uniforms[i] := uniformLocations[i];
        i := i + 1;
      }
      i := 0;
      while i < ATTRIBUTE_COUNT
        invariant 0 <= i <= ATTRIBUTE_COUNT
        invariant forall j :: 0 <= j < i ==> attributes[j] == attributeLocations[j]
        invariant uniforms[..] == uniformLocations
        modifies attributes
      {
        attributes[i] := attributeLocations[i];
        i := i + 1;
      }
      ok := true;
    }
  }

  /** The GL calls of one `load` of the program named `program`. */
  function LoadEvents(program: Handle, vertexShader: Handle, fragmentShader: Handle, linkOk: bool): seq<Call>
  {
    [AttachShader(program, vertexShader), AttachShader(program, fragmentShader), LinkProgram(program)]
      + (if linkOk then [] else [DeleteProgram(program)])
  }

  /** `p` is a linked program named `handle` whose tables hold exactly the given locations. */
  ghost predicate Holds(p: ShaderProgram?, handle: Handle, locations: seq<int>, attributeLocations: seq<int>)
    reads p, if p == null then {} else {p.uniforms, p.attributes}
  {
    p != null && p.Valid() && p.program == handle
    && p.uniforms[..] == locations && p.attributes[..] == attributeLocations
  }

  /** One entry of the generated program table: which vertex and fragment shader it links. */
  datatype ProgramInfo = ProgramInfo(vertex: nat, fragment: nat)

  /** The generated shader tables: the shader counts and the program descriptions. */
  datatype ShaderTable = ShaderTable(vertexCount: nat, fragmentCount: nat, programs: seq<ProgramInfo>) {
    predicate Valid() {
      forall i :: 0 <= i < |programs| ==>
        programs[i].vertex < vertexCount && programs[i].fragment < fragmentCount
    }
  }

  /**
   * What the GL driver answers, shader by shader and program by program:
   * whether it compiles or links, and the uniform and attribute locations a
   * linked program reports.
   */
  datatype BuildOracle = BuildOracle(
    vertexCompiles: seq<bool>,
    fragmentCompiles: seq<bool>,
    links: seq<bool>,
    uniformLocations: seq<seq<int>>,
    attributeLocations: seq<seq<int>>)
  {
    /** One answer per shader and per program of `t`, and one location per uniform and attribute. */
    predicate Fits(t: ShaderTable) {
      |vertexCompiles| == t.vertexCount && |fragmentCompiles| == t.fragmentCount
      && |links| == |uniformLocations| == |attributeLocations| == |t.programs|
      && (forall i :: 0 <= i < |uniformLocations| ==> |uniformLocations[i]| == UNIFORM_COUNT)
      && (forall i :: 0 <= i < |attributeLocations| ==> |attributeLocations[i]| == ATTRIBUTE_COUNT)
    }
  }

  /** The index of the first failure in `ok`, or `|ok|` when there is none. */
  function FirstFailure(ok: seq<bool>): (r: nat)
    ensures r <= |ok|
    ensures forall j :: 0 <= j < r ==> ok[j]
    ensures r < |ok| ==> !ok[r]
  {
    if |ok| == 0 || !ok[0] then 0 else 1 + FirstFailure(ok[1..])
  }

  /** Nothing in `ok` failed. */
  predicate AllOk(ok: seq<bool>)
  {
    FirstFailure(ok) == |ok|
  }

  /** How many builds a loop over `ok` attempts when it stops right after the first failure. */
  function Attempts(ok: seq<bool>): (r: nat)
    ensures FirstFailure(ok) <= r <= |ok|
    ensures r < |ok| ==> 1 <= r && !ok[r - 1]
  {
    var f := FirstFailure(ok);
    if f < |ok| then f + 1 else |ok|
  }

  /** How many builds a loop attempts when it runs only while the build so far has succeeded. */
  function StageAttempts(ok: seq<bool>, enabled: bool): (r: nat)
    ensures r <= |ok|
    ensures !enabled ==> r == 0
  {
    if enabled then Attempts(ok) else 0
  }

  /**
   * The shader slots a loop over `compiles` leaves behind when it attempts
   * `k` shaders with names after `base`: the name of each shader that
   * compiled, else 0.
   */
  function Handles(compiles: seq<bool>, k: nat, base: nat): (r: seq<Handle>)
    ensures |r| == |compiles|
  {
    seq(|compiles|, j requires 0 <= j < |compiles| => if j < k && compiles[j] then base + 1 + j else 0)
  }

  /** The GL calls of the first `k` attempts of one shader loop whose names start after `base`. */
  function CompileEvents(stage: ShaderStage, k: nat, compiles: seq<bool>, base: nat): seq<Call>
    requires k <= |compiles|
  {
    if k == 0 then []
    else
      CompileEvents(stage, k - 1, compiles, base)
        + [CompileShader(stage, k - 1)]
        + (if compiles[k - 1] then [] else [DeleteShader(base + k)])
  }

  /**
   * The GL calls of the first `k` iterations of the program loop, for
   * program names that start after `base` and the given shader slots.
   */
  function LinkEvents(t: ShaderTable, links: seq<bool>, k: nat, base: nat,
                      vertexShaders: seq<Handle>, fragmentShaders: seq<Handle>): seq<Call>
    requires t.Valid() && k <= |t.programs| && k <= |links|
    requires |vertexShaders| == t.vertexCount && |fragmentShaders| == t.fragmentCount
  {
    if k == 0 then []
    else
      var info := t.programs[k - 1];
      LinkEvents(t, links, k - 1, base, vertexShaders, fragmentShaders)
        + LoadEvents(base + k, vertexShaders[info.vertex], fragmentShaders[info.fragment], links[k - 1])
  }

  /** One `glDeleteShader` per slot, in slot order. */
  function DeleteEvents(shaders: seq<Handle>): (r: seq<Call>)
    ensures |r| == |shaders|
  {
    if shaders == [] then [] else DeleteEvents(shaders[..|shaders| - 1]) + [DeleteShader(shaders[|shaders| - 1])]
  }

  /** The outcome of `init` for a manager over `t` whose GL names start after `base`. */
  function VertexAttempts(o: BuildOracle): nat {
    StageAttempts(o.vertexCompiles, true)
  }

  function FragmentAttempts(o: BuildOracle): nat {
    StageAttempts(o.fragmentCompiles, AllOk(o.vertexCompiles))
  }

  function ProgramAttempts(o: BuildOracle): nat {
    StageAttempts(o.links, AllOk(o.vertexCompiles) && AllOk(o.fragmentCompiles))
  }

  /** `init` succeeds exactly when every shader compiles and every program links. */
  predicate InitSucceeds(o: BuildOracle)
  {
    AllOk(o.vertexCompiles) && AllOk(o.fragmentCompiles) && AllOk(o.links)
  }

  /** Slot `i` gets a new program exactly when every shader compiled and programs `0..i` linked. */
  predicate ProgramBuilt(o: BuildOracle, i: nat)
  {
    AllOk(o.vertexCompiles) && AllOk(o.fragmentCompiles) && i < FirstFailure(o.links)
  }

  /** The name the `i`-th program gets: it follows every shader attempted and every earlier program. */
  function ProgramHandle(o: BuildOracle, base: nat, i: nat): Handle {
    base + VertexAttempts(o) + FragmentAttempts(o) + 1 + i
  }

  /** Every GL call of `init`, in order. */
  function InitEvents(t: ShaderTable, o: BuildOracle, base: nat): seq<Call>
    requires t.Valid() && o.Fits(t)
  {
    var vertexShaders := Handles(o.vertexCompiles, VertexAttempts(o), base);
    var fragmentShaders := Handles(o.fragmentCompiles, FragmentAttempts(o), base + VertexAttempts(o));
    CompileEvents(VertexStage, VertexAttempts(o), o.vertexCompiles, base)
      + CompileEvents(FragmentStage, FragmentAttempts(o), o.fragmentCompiles, base + VertexAttempts(o))
      + LinkEvents(t, o.links, ProgramAttempts(o), base + VertexAttempts(o) + FragmentAttempts(o),
                   vertexShaders, fragmentShaders)
      + (DeleteEvents(vertexShaders) + DeleteEvents(fragmentShaders))
  }

  /** `ShaderManager`: the program slots, one per entry of the program table. */
  class ShaderManager {
    const table: ShaderTable
    var programs: seq<ShaderProgram?>

    ghost predicate Valid()
      reads this
    {
      table.Valid() && |programs| == |table.programs|
    }

    /** Exactly one empty slot per program. */
    constructor(table: ShaderTable)
      requires table.Valid()
      ensures Valid() && this.table == table
      ensures forall i :: 0 <= i < |programs| ==> programs[i] == null
    {
      this.table := table;
      programs := seq(|table.programs|, _ => null);
    }

    /** `getProgram`: the slot of a program ID, which must lie in the table. */
    function GetProgram(id: int): (p: ShaderProgram?)
      requires Valid()
      requires 0 <= id < |table.programs|
      reads this
      ensures p == programs[id]
    {
      programs[id]
    }

    /** `loadShader`: compiles one shader; on failure deletes it and answers 0. */
    static method LoadShader(gl: CommandStream, stage: ShaderStage, index: nat, compiles: bool) returns (shader: Handle)
      modifies gl
      ensures gl.names == old(gl.names) + 1
      ensures shader == (if compiles then gl.names else 0)
      ensures gl.log == old(gl.log) + [CompileShader(stage, index)]
                        + (if compiles then [] else [DeleteShader(gl.names)])
    {
      shader := gl.Create();
      gl.Emit(CompileShader(stage, index));
      if !compiles {
        gl.Emit(DeleteShader(shader));
        shader := 0;
      }
    }

    /**
     * One shader loop of `init`: while nothing has failed, compile the next
     * shader of the stage; a slot that is not attempted stays 0.
     */
    static method LoadStage(gl: CommandStream, stage: ShaderStage, compiles: seq<bool>, enabled: bool)
      returns (shaders: array<Handle>, succeeded: bool)
      modifies gl
      ensures fresh(shaders)
      ensures succeeded == (enabled && AllOk(compiles))
      ensures gl.names == old(gl.names) + StageAttempts(compiles, enabled)
      ensures gl.log == old(gl.log) + CompileEvents(stage, StageAttempts(compiles, enabled), compiles, old(gl.names))
      ensures shaders[..] == Handles(compiles, StageAttempts(compiles, enabled), old(gl.names))
    {
      shaders := new Handle[|compiles|](_ => 0);
      succeeded := enabled;
      if !succeeded {
        return;
      }
      ghost var built := FirstFailure(compiles);
      var i := 0;
      while i < |compiles| && succeeded
        invariant 0 <= i <= |compiles|
        invariant succeeded ==> i <= built
        invariant !succeeded ==> i == built + 1
        invariant gl.names == old(gl.names) + i
        invariant gl.log == old(gl.log) + CompileEvents(stage, i, compiles, old(gl.names))
        invariant forall j :: 0 <= j < i ==> shaders[j] == (if compiles[j] then old(gl.names) + 1 + j else 0)
        invariant forall j :: i <= j < |compiles| ==> shaders[j] == 0
        modifies shaders, gl
      {
        shaders[i] := LoadShader(gl, stage, i, compiles[i]);
        if shaders[i] == 0 {
          succeeded := false;
        }
        i := i + 1;
      }
    }

    /** One iteration of the program loop: a new program, loaded from the two shader slots. */
    static method BuildProgram(gl: CommandStream, vertexShader: Handle, fragmentShader: Handle, linkOk: bool,
                               locations: seq<int>, attributeLocations: seq<int>)
      returns (program: ShaderProgram, ok: bool)
      requires |locations| == UNIFORM_COUNT && |attributeLocations| == ATTRIBUTE_COUNT
      modifies gl
      ensures fresh(program) && fresh(program.uniforms) && fresh(program.attributes)
      ensures ok == linkOk
      ensures gl.names == old(gl.names) + 1
      ensures gl.log == old(gl.log) + LoadEvents(gl.names, vertexShader, fragmentShader, ok)
      ensures ok ==> Holds(program, gl.names, locations, attributeLocations)
    {
      program := new ShaderProgram();
      ok := program.Load(gl, vertexShader, fragmentShader, linkOk, locations, attributeLocations);
    }

    /**
     * The program loop of `init`: while nothing has failed, build the next
     * program from its two shader slots; a slot takes the new program only
     * when it links.
     */
    method LinkPrograms(gl: CommandStream, vertexShaders: seq<Handle>, fragmentShaders: seq<Handle>,
                        oracle: BuildOracle, enabled: bool) returns (succeeded: bool)
      requires Valid() && oracle.Fits(table)
      requires |vertexShaders| == table.vertexCount && |fragmentShaders| == table.fragmentCount
      modifies this, gl
      ensures Valid()
      ensures succeeded == (enabled && AllOk(oracle.links))
      ensures gl.log == old(gl.log) + LinkEvents(table, oracle.links, StageAttempts(oracle.links, enabled),
                                                 old(gl.names), vertexShaders, fragmentShaders)
      ensures forall i :: 0 <= i < |programs| && !(enabled && i < FirstFailure(oracle.links)) ==>
        programs[i] == old(programs[i])
      ensures forall i :: 0 <= i < |programs| && enabled && i < FirstFailure(oracle.links) ==>
        fresh(programs[i])
        && Holds(programs[i], old(gl.names) + 1 + i, oracle.uniformLocations[i], oracle.attributeLocations[i])
    {
      succeeded := enabled;
      if !succeeded {
        return;
      }
      ghost var built := FirstFailure(oracle.links);
      var i := 0;
      while i < |table.programs| && succeeded
        invariant 0 <= i <= |table.programs|
        invariant Valid()
        invariant succeeded ==> i <= built
        invariant !succeeded ==> i == built + 1
        invariant gl.names == old(gl.names) + i
        invariant gl.log == old(gl.log) + LinkEvents(table, oracle.links, i, old(gl.names), vertexShaders, fragmentShaders)
        invariant forall j :: 0 <= j < |programs| ==>
          if j < i && j < built then
            fresh(programs[j])
            && Holds(programs[j], old(gl.names) + 1 + j, oracle.uniformLocations[j], oracle.attributeLocations[j])
          else programs[j] == old(programs[j])
        modifies this, gl
      {
        var ok := BuildSlot(gl, i, vertexShaders, fragmentShaders, oracle, old(gl.log), old(gl.names));
        if !ok {
          succeeded := false;
        }
        i := i + 1;
      }
    }

    /** One iteration of the program loop: build program `i`, and fill its slot when it links. */
    method BuildSlot(gl: CommandStream, i: nat, vertexShaders: seq<Handle>, fragmentShaders: seq<Handle>,
                       oracle: BuildOracle, ghost start: seq<Call>, ghost base: nat) returns (ok: bool)
      requires Valid() && oracle.Fits(table) && i < |table.programs|
      requires |vertexShaders| == table.vertexCount && |fragmentShaders| == table.fragmentCount
      requires gl.names == base + i
      requires gl.log == start + LinkEvents(table, oracle.links, i, base, vertexShaders, fragmentShaders)
      modifies this, gl
      ensures Valid()
      ensures ok == oracle.links[i]
      ensures gl.names == base + i + 1
      ensures gl.log == start + LinkEvents(table, oracle.links, i + 1, base, vertexShaders, fragmentShaders)
      ensures !ok ==> programs == old(programs)
      ensures ok ==> programs == old(programs)[i := programs[i]] && fresh(programs[i])
                     && Holds(programs[i], gl.names, oracle.uniformLocations[i], oracle.attributeLocations[i])
    {
      var info := table.programs[i];
      var program;
      program, ok := BuildProgram(gl, vertexShaders[info.vertex], fragmentShaders[info.fragment],
                                  oracle.links[i], oracle.uniformLocations[i], oracle.attributeLocations[i]);
      if ok {
        programs := programs[i := program];
      }
      AppendAssociates(start, LinkEvents(table, oracle.links, i, base, vertexShaders, fragmentShaders),
                       LoadEvents(gl.names, vertexShaders[info.vertex], fragmentShaders[info.fragment], ok));
    }

    /** The closing loops of `init`: every slot of a shader array is deleted, 0 or not. */
    static method DeleteShaders(gl: CommandStream, shaders: array<Handle>)
      modifies gl
      ensures gl.names == old(gl.names)
      ensures gl.log == old(gl.log) + DeleteEvents(shaders[..])
    {
      var i := 0;
      while i < shaders.Length
        invariant 0 <= i <= shaders.Length
        invariant gl.names == old(gl.names)
        invariant gl.log == old(gl.log) + DeleteEvents(shaders[..i])
        modifies gl
      {
        assert shaders[..i + 1][..i] == shaders[..i];
        gl.Emit(DeleteShader(shaders[i]));
        i := i + 1;
      }
      assert shaders[..i] == shaders[..];
    }

    /**
     * `init`: compiles every vertex shader, then every fragment shader, then
     * links every program, each loop stopping at its first failure and no
     * later loop starting after one; then deletes every shader slot. It
     * answers whether everything built.
     */
    method Init(gl: CommandStream, oracle: BuildOracle) returns (succeeded: bool)
      requires Valid() && oracle.Fits(table)
      modifies this, gl
      ensures Valid()
      ensures succeeded == InitSucceeds(oracle)
      ensures gl.log == old(gl.log) + InitEvents(table, oracle, old(gl.names))
      ensures forall i :: 0 <= i < |programs| && !ProgramBuilt(oracle, i) ==> programs[i] == old(programs[i])
      ensures forall i :: 0 <= i < |programs| && ProgramBuilt(oracle, i) ==>
        fresh(programs[i])
        && Holds(programs[i], ProgramHandle(oracle, old(gl.names), i), oracle.uniformLocations[i], oracle.attributeLocations[i])
    {
      ghost var names, log := gl.names, gl.log;
      var vertexShaders, vertexOk := LoadStage(gl, VertexStage, oracle.vertexCompiles, true);
      ghost var compileVertex := CompileEvents(VertexStage, StageAttempts(oracle.vertexCompiles, true), oracle.vertexCompiles, names);
      ghost var fragmentBase := gl.names;
      var fragmentShaders, fragmentOk := LoadStage(gl, FragmentStage, oracle.fragmentCompiles, vertexOk);
      ghost var compileFragment :=
        CompileEvents(FragmentStage, StageAttempts(oracle.fragmentCompiles, vertexOk), oracle.fragmentCompiles, fragmentBase);
      ghost var programBase := gl.names;
      succeeded := LinkPrograms(gl, vertexShaders[..], fragmentShaders[..], oracle, fragmentOk);
      ghost var links := LinkEvents(table, oracle.links, StageAttempts(oracle.links, fragmentOk), programBase,
                                    vertexShaders[..], fragmentShaders[..]);
      DeleteShaders(gl, vertexShaders);
      DeleteShaders(gl, fragmentShaders);
      ConcatAssociates(log, compileVertex, compileFragment, links, DeleteEvents(vertexShaders[..]), DeleteEvents(fragmentShaders[..]));
      InitEventsByPhase(table, oracle, names, vertexOk, fragmentOk, fragmentBase, programBase, vertexShaders[..], fragmentShaders[..]);
    }
  }

  /**
   * The phases of `init` put together: given what the shader loops leave
   * behind (flags, slots and the next free name), the calls of the whole
   * run are those of its phases in order.
   */
  lemma InitEventsByPhase(t: ShaderTable, o: BuildOracle, base: nat, vertexOk: bool, fragmentOk: bool,
                          fragmentBase: nat, programBase: nat, vs: seq<Handle>, fs: seq<Handle>)
    requires t.Valid() && o.Fits(t)
    requires vertexOk == AllOk(o.vertexCompiles) && fragmentOk == (vertexOk && AllOk(o.fragmentCompiles))
    requires fragmentBase == base + StageAttempts(o.vertexCompiles, true)
    requires programBase == fragmentBase + StageAttempts(o.fragmentCompiles, vertexOk)
    requires vs == Handles(o.vertexCompiles, StageAttempts(o.vertexCompiles, true), base)
    requires fs == Handles(o.fragmentCompiles, StageAttempts(o.fragmentCompiles, vertexOk), fragmentBase)
    ensures InitEvents(t, o, base) ==
      CompileEvents(VertexStage, StageAttempts(o.vertexCompiles, true), o.vertexCompiles, base)
      + CompileEvents(FragmentStage, StageAttempts(o.fragmentCompiles, vertexOk), o.fragmentCompiles, fragmentBase)
      + LinkEvents(t, o.links, StageAttempts(o.links, fragmentOk), programBase, vs, fs)
      + (DeleteEvents(vs) + DeleteEvents(fs))
  {
  }

  /** The `j`-th call of the closing loop deletes slot `j`. */
  lemma {:induction false} DeleteEventsCoverSlots(shaders: seq<Handle>)
    ensures forall j :: 0 <= j < |shaders| ==> DeleteEvents(shaders)[j] == DeleteShader(shaders[j])
    decreases |shaders|
  {
    if shaders != [] {
      DeleteEventsCoverSlots(shaders[..|shaders| - 1]);
    }
  }

  /** A shader loop that attempts `k` shaders compiles each of them once. */
  lemma {:induction false} CompileEventsCount(stage: ShaderStage, k: nat, compiles: seq<bool>, base: nat)
    requires k <= |compiles|
    ensures Count(CompileEvents(stage, k, compiles, base), Compiles) == k
  {
    if k > 0 {
      var earlier := CompileEvents(stage, k - 1, compiles, base);
      var failure: seq<Call> := if compiles[k - 1] then [] else [DeleteShader(base + k)];
      CompileEventsCount(stage, k - 1, compiles, base);
      CountAppend(earlier + [CompileShader(stage, k - 1)], failure, Compiles);
      CountLast(earlier, CompileShader(stage, k - 1), Compiles);
      CountNone(failure, Compiles);
    }
  }

  /** One `load` links its program once. */
  lemma LoadEventsCount(program: Handle, vertexShader: Handle, fragmentShader: Handle, linkOk: bool)
    ensures Count(LoadEvents(program, vertexShader, fragmentShader, linkOk), Links) == 1
  {
    var attach := [AttachShader(program, vertexShader), AttachShader(program, fragmentShader)];
    var failure: seq<Call> := if linkOk then [] else [DeleteProgram(program)];
    assert LoadEvents(program, vertexShader, fragmentShader, linkOk) == attach + [LinkProgram(program)] + failure;
    CountNone(attach, Links);
    CountNone(failure, Links);
    CountLast(attach, LinkProgram(program), Links);
    CountAppend(attach + [LinkProgram(program)], failure, Links);
  }

  /** A program loop that attempts `k` programs links each of them once. */
  lemma {:induction false} LinkEventsCount(t: ShaderTable, links: seq<bool>, k: nat, base: nat,
                                           vs: seq<Handle>, fs: seq<Handle>)
    requires t.Valid() && k <= |t.programs| && k <= |links|
    requires |vs| == t.vertexCount && |fs| == t.fragmentCount
    ensures Count(LinkEvents(t, links, k, base, vs, fs), Links) == k
  {
    if k > 0 {
      var info := t.programs[k - 1];
      var earlier := LinkEvents(t, links, k - 1, base, vs, fs);
      var load := LoadEvents(base + k, vs[info.vertex], fs[info.fragment], links[k - 1]);
      LinkEventsCount(t, links, k - 1, base, vs, fs);
      LoadEventsCount(base + k, vs[info.vertex], fs[info.fragment], links[k - 1]);
      CountAppend(earlier, load, Links);
    }
  }

  /**
   * A successful `init` attempted every shader and every program of the
   * table; with at least one program, it succeeds exactly when every
   * program slot was filled.
   */
  lemma InitOutcome(t: ShaderTable, o: BuildOracle)
    requires o.Fits(t)
    ensures InitSucceeds(o) ==>
      VertexAttempts(o) == t.vertexCount && FragmentAttempts(o) == t.fragmentCount
      && ProgramAttempts(o) == |t.programs|
    ensures |t.programs| > 0 ==>
      (InitSucceeds(o) <==> forall i :: 0 <= i < |t.programs| ==> ProgramBuilt(o, i))
  {
    if |t.programs| > 0 && forall i :: 0 <= i < |t.programs| ==> ProgramBuilt(o, i) {
      assert ProgramBuilt(o, |t.programs| - 1);
    }
  }
}
