/** An abstract OpenGL context. Every GL call the core makes is appended to a
    call log; the drawing state the core cares about (the ARRAY_BUFFER binding,
    the enabled vertex attribute arrays and the contents of each buffer) is the
    replay of that log. Compile status, link status, the info logs and the
    location queries are oracles fixed when the context is created. */
module Gl {
  import opened Outcomes

  // Enumerants, as defined by the OpenGL headers.
  const GL_TRUE: int := 1
  const GL_LINE_LOOP: int := 0x0002
  const GL_POLYGON: int := 0x0009
  const GL_BYTE: int := 0x1400
  const GL_SHORT: int := 0x1402
  const GL_INT: int := 0x1404
  const GL_FLOAT: int := 0x1406
  const GL_DOUBLE: int := 0x140A
  const GL_STREAM_DRAW: int := 0x88E0
  const GL_STATIC_DRAW: int := 0x88E4
  const GL_DYNAMIC_DRAW: int := 0x88E8
  const GL_FRAGMENT_SHADER: int := 0x8B30
  const GL_VERTEX_SHADER: int := 0x8B31
  const GL_GEOMETRY_SHADER: int := 0x8DD9
  const GL_TESS_EVALUATION_SHADER: int := 0x8E87
  const GL_TESS_CONTROL_SHADER: int := 0x8E88
  const GL_COMPUTE_SHADER: int := 0x91B9

  /** The glUniform* entry points the core can choose between. */
  datatype UniformFn =
    | Uniform1iv | Uniform2iv | Uniform3iv | Uniform4iv
    | Uniform1fv | Uniform2fv | Uniform3fv | Uniform4fv
    | UniformMatrix2fv | UniformMatrix3fv | UniformMatrix4fv
    | Uniform1i | Uniform1f

  /** One GL call as it appears in the log. Buffer uploads carry their values
      (every numeric kind as a mathematical real). */
  datatype Call =
    | ShaderSource(shader: int, source: string)
    | CompileShader(shader: int)
    | DeleteShader(shader: int)
    | AttachShader(program: int, shader: int)
    | DetachShader(program: int, shader: int)
    | LinkProgram(program: int)
    | DeleteProgram(program: int)
    | UseProgram(program: int)
    | BindArrayBuffer(buffer: int)
    | BufferData(data: seq<real>, usage: int)
    | DeleteBuffer(buffer: int)
    | EnableAttribArray(location: int)
    | DisableAttribArray(location: int)
    | AttribPointer(location: int, size: int, glType: int)
    | UniformFloats(fn: UniformFn, location: int, floats: seq<real>)
    | UniformInts(fn: UniformFn, location: int, ints: seq<int>)
    | DrawArrays(mode: int, first: int, count: int)
  {
    /** Calls that change shader/program object state, which Gl keeps in fields. */
    predicate ObjectCall() {
      ShaderSource? || CompileShader? || AttachShader? || DetachShader? || LinkProgram?
    }
  }

  /** The drawing state: ARRAY_BUFFER binding, enabled attribute arrays, buffer stores. */
  datatype DrawState = DrawState(arrayBuffer: int, enabled: set<int>, store: map<int, seq<real>>)

  function Apply(s: DrawState, c: Call): DrawState {
    match c
    case BindArrayBuffer(b) => s.(arrayBuffer := b)
    case BufferData(d, _) =>
      // with no buffer bound, glBufferData is an error and changes nothing
      if s.arrayBuffer == 0 then s else s.(store := s.store[s.arrayBuffer := d])
    case DeleteBuffer(b) =>
      s.(store := s.store - {b}, arrayBuffer := if s.arrayBuffer == b then 0 else s.arrayBuffer)
    case EnableAttribArray(l) => s.(enabled := s.enabled + {l})
    case DisableAttribArray(l) => s.(enabled := s.enabled - {l})
    case _ => s
  }

  function Replay(s: DrawState, calls: seq<Call>): DrawState
    decreases |calls|
  {
    if calls == [] then s else Replay(Apply(s, calls[0]), calls[1..])
  }

  lemma {:induction false} ReplayAppend(s: DrawState, a: seq<Call>, b: seq<Call>)
    ensures Replay(s, a + b) == Replay(Replay(s, a), b)
    decreases |a|
  {
    if a == [] {
      assert a + b == b;
    } else {
      assert (a + b)[0] == a[0];
      assert (a + b)[1..] == a[1..] + b;
      ReplayAppend(Apply(s, a[0]), a[1..], b);
    }
  }

  /** The result of running a sequence of operations: how it ended and the GL
      calls it issued, in order. An operation that throws has issued the calls
      made before the throw. */
  datatype Run = Run(outcome: Outcome, calls: seq<Call>)

  const Done: Run := Run(Pass, [])

  function Issued(calls: seq<Call>): Run { Run(Pass, calls) }

  function Raise(e: Error): Run { Run(Fail(e), []) }

  /** Sequential composition: b runs only if a returned normally. */
  function Then(a: Run, b: Run): (r: Run)
    ensures a.outcome.Fail? ==> r == a
    ensures a.outcome.Pass? ==> r.outcome == b.outcome && r.calls == a.calls + b.calls
  {
    if a.outcome.Fail? then a else Run(b.outcome, a.calls + b.calls)
  }

  lemma ThenAssociative(a: Run, b: Run, c: Run)
    ensures Then(Then(a, b), c) == Then(a, Then(b, c))
  {
    if a.outcome.Pass? && b.outcome.Pass? {
      assert (a.calls + b.calls) + c.calls == a.calls + (b.calls + c.calls);
    }
  }

  /** forEach: one run per element, in order, stopping at the first throw. */
  function ForEach<T>(xs: seq<T>, each: T -> Run): Run
    decreases |xs|
  {
    if xs == [] then Done else Then(each(xs[0]), ForEach(xs[1..], each))
  }

  class Gl {
    const initial: DrawState
    /** GL_COMPILE_STATUS after compiling a source for a stage constant. */
    const compileOracle: (int, string) -> bool
    /** GL_LINK_STATUS after linking a program with the given attached shaders. */
    const linkOracle: (int, set<int>) -> bool
    const shaderInfoLog: int -> string
    const programInfoLog: int -> string
    /** glGetAttribLocation / glGetUniformLocation of a linked program. */
    const attribLocation: (int, string) -> int
    const uniformLocation: (int, string) -> int

    var log: seq<Call>
    var nextName: nat
    var shaderStages: map<int, int>
    var sources: map<int, string>
    var compiled: map<int, bool>
    var attachments: map<int, set<int>>
    var linked: map<int, bool>

    constructor (initial: DrawState, compileOracle: (int, string) -> bool,
                 linkOracle: (int, set<int>) -> bool, shaderInfoLog: int -> string,
                 programInfoLog: int -> string, attribLocation: (int, string) -> int,
                 uniformLocation: (int, string) -> int)
      ensures this.initial == initial && this.compileOracle == compileOracle
      ensures this.linkOracle == linkOracle && this.shaderInfoLog == shaderInfoLog
      ensures this.programInfoLog == programInfoLog
      ensures this.attribLocation == attribLocation && this.uniformLocation == uniformLocation
      ensures log == [] && nextName == 0
      ensures shaderStages == map[] && sources == map[] && compiled == map[]
      ensures attachments == map[] && linked == map[]
    {
      this.initial := initial;
      this.compileOracle := compileOracle;
      this.linkOracle := linkOracle;
      this.shaderInfoLog := shaderInfoLog;
      this.programInfoLog := programInfoLog;
      this.attribLocation := attribLocation;
      this.uniformLocation := uniformLocation;
      log := [];
      nextName := 0;
      shaderStages, sources, compiled := map[], map[], map[];
      attachments, linked := map[], map[];
    }

    function State(): DrawState
      reads this`log
    {
      Replay(initial, log)
    }

    predicate IsCompiled(shader: int)
      reads this`compiled
    {
      shader in compiled && compiled[shader]
    }

    predicate IsLinked(program: int)
      reads this`linked
    {
      program in linked && linked[program]
    }

    function Attached(program: int): set<int>
      reads this`attachments
    {
      if program in attachments then attachments[program] else {}
    }

    /** A fresh object name (glCreateProgram, glCreateShader, glGenBuffers); never 0. */
    method NewName() returns (n: int)
      modifies this`nextName
      ensures n == old(nextName) + 1 && nextName == n && n > 0
    {
      nextName := nextName + 1;
      n := nextName;
    }

    /** Any call that does not change shader or program object state. */
    method Issue(c: Call)
      requires !c.ObjectCall()
      modifies this`log
      ensures log == old(log) + [c]
    {
      log := log + [c];
    }

    method CreateShader(stage: int) returns (shader: int)
      modifies this`nextName, this`shaderStages
      ensures shader == old(nextName) + 1 && nextName == shader && shader > 0
      ensures shaderStages == old(shaderStages)[shader := stage]
    {
      shader := NewName();
      shaderStages := shaderStages[shader := stage];
    }

    method ShaderSource(shader: int, source: string)
      modifies this`sources, this`log
      ensures sources == old(sources)[shader := source]
      ensures log == old(log) + [Call.ShaderSource(shader, source)]
    {
      sources := sources[shader := source];
      log := log + [Call.ShaderSource(shader, source)];
    }

    /** The status glCompileShader would record for a shader now. */
    predicate CompileResult(shader: int)
      reads this`shaderStages, this`sources
    {
      shader in shaderStages && shader in sources && compileOracle(shaderStages[shader], sources[shader])
    }

    method CompileShader(shader: int)
      modifies this`compiled, this`log
      ensures compiled == old(compiled)[shader := CompileResult(shader)]
      ensures log == old(log) + [Call.CompileShader(shader)]
    {
      compiled := compiled[shader := CompileResult(shader)];
      log := log + [Call.CompileShader(shader)];
    }

    method AttachShader(program: int, shader: int)
      modifies this`attachments, this`log
      ensures attachments == old(attachments)[program := old(Attached(program)) + {shader}]
      ensures log == old(log) + [Call.AttachShader(program, shader)]
    {
      attachments := attachments[program := Attached(program) + {shader}];
      log := log + [Call.AttachShader(program, shader)];
    }

    method DetachShader(program: int, shader: int)
      modifies this`attachments, this`log
      ensures attachments == old(attachments)[program := old(Attached(program)) - {shader}]
      ensures log == old(log) + [Call.DetachShader(program, shader)]
    {
      attachments := attachments[program := Attached(program) - {shader}];
      log := log + [Call.DetachShader(program, shader)];
    }

    method LinkProgram(program: int)
      modifies this`linked, this`log
      ensures linked == old(linked)[program := linkOracle(program, Attached(program))]
      ensures log == old(log) + [Call.LinkProgram(program)]
    {
      linked := linked[program := linkOracle(program, Attached(program))];
      log := log + [Call.LinkProgram(program)];
    }
  }
}
