/** Shader.kt: one shader stage, compiled when it is constructed. */
module Shaders {
  import opened Outcomes
  import opened Gl

  datatype ShaderType = Vertex | Fragment | TessControl | TessEvaluation | Geometry | Compute

  /** ShaderType.toGLConstant: always one of the six GL shader-type constants
      (that no two stages share one is ToGLConstantInjective). */
  function ToGLConstant(t: ShaderType): (r: int)
    ensures r in {GL_VERTEX_SHADER, GL_FRAGMENT_SHADER, GL_GEOMETRY_SHADER,
                  GL_TESS_CONTROL_SHADER, GL_TESS_EVALUATION_SHADER, GL_COMPUTE_SHADER}
  {
    match t
    case Vertex => GL_VERTEX_SHADER
    case Fragment => GL_FRAGMENT_SHADER
    case Geometry => GL_GEOMETRY_SHADER
    case TessControl => GL_TESS_CONTROL_SHADER
    case TessEvaluation => GL_TESS_EVALUATION_SHADER
    case Compute => GL_COMPUTE_SHADER
  }

  /** The stage a GL shader-type constant names, if any. */
  function FromGLConstant(c: int): (r: Option<ShaderType>)
    ensures r.Some? ==> ToGLConstant(r.value) == c
  {
    if c == GL_VERTEX_SHADER then Some(Vertex)
    else if c == GL_FRAGMENT_SHADER then Some(Fragment)
    else if c == GL_GEOMETRY_SHADER then Some(Geometry)
    else if c == GL_TESS_CONTROL_SHADER then Some(TessControl)
    else if c == GL_TESS_EVALUATION_SHADER then Some(TessEvaluation)
    else if c == GL_COMPUTE_SHADER then Some(Compute)
    else None
  }

  /** The six stages map to six distinct constants: the constant determines the stage. */
  lemma ToGLConstantRoundTrip(t: ShaderType)
    ensures FromGLConstant(ToGLConstant(t)) == Some(t)
  {
  }

  lemma ToGLConstantInjective(a: ShaderType, b: ShaderType)
    ensures ToGLConstant(a) == ToGLConstant(b) <==> a == b
  {
    ToGLConstantRoundTrip(a);
    ToGLConstantRoundTrip(b);
  }

  class Shader {
    const stage: ShaderType
    const source: string
    /** The lazily created handle; the init block is its first use, so it is
        created, once, during construction. */
    const handle: int

    /** The init block: create the handle for the stage, upload the source, compile. */
    constructor (gl: Gl, stage: ShaderType, source: string)
      modifies gl`nextName, gl`shaderStages, gl`sources, gl`compiled, gl`log
      ensures this.stage == stage && this.source == source
      ensures handle == old(gl.nextName) + 1 && gl.nextName == handle && handle > 0
      ensures gl.shaderStages == old(gl.shaderStages)[handle := ToGLConstant(stage)]
      ensures gl.sources == old(gl.sources)[handle := source]
      ensures gl.compiled == old(gl.compiled)[handle := gl.compileOracle(ToGLConstant(stage), source)]
      ensures gl.log == old(gl.log) + [ShaderSource(handle, source), CompileShader(handle)]
    {
      this.stage := stage;
      this.source := source;
      var h := gl.CreateShader(ToGLConstant(stage));
      handle := h;
      new;
      gl.ShaderSource(handle, source);
      gl.CompileShader(handle);
    }

    /** isCompiled: queries GL_COMPILE_STATUS of the handle. */
    method IsCompiled(gl: Gl) returns (b: bool)
      ensures b == gl.IsCompiled(handle)
    {
      b := handle in gl.compiled && gl.compiled[handle];
    }

    /** close: deletes the shader handle. */
    method Close(gl: Gl)
      modifies gl`log
      ensures gl.log == old(gl.log) + [DeleteShader(handle)]
    {
      gl.Issue(DeleteShader(handle));
    }
  }

  /** The Kotlin expression `Shader(type, source)`: construction either yields a
      compiled shader or throws ShaderCompilationException with the info log. */
  method NewShader(gl: Gl, stage: ShaderType, source: string) returns (r: Result<Shader>)
    modifies gl`nextName, gl`shaderStages, gl`sources, gl`compiled, gl`log
    ensures gl.nextName == old(gl.nextName) + 1
    ensures gl.log == old(gl.log) + [ShaderSource(gl.nextName, source), CompileShader(gl.nextName)]
    ensures r.Success? <==> gl.compileOracle(ToGLConstant(stage), source)
    ensures r.Success? ==> fresh(r.value) && r.value.stage == stage && r.value.source == source
                           && r.value.handle == gl.nextName && gl.IsCompiled(r.value.handle)
    ensures r.Failure? ==> r.error == CompileFailed(gl.shaderInfoLog(gl.nextName))
  {
    var s := new Shader(gl, stage, source);
    var ok := s.IsCompiled(gl);
    if !ok {
      return Failure(CompileFailed(gl.shaderInfoLog(s.handle)));
    }
    r := Success(s);
  }
}
