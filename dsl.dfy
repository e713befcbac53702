/** graphics/DSL.kt: the `program { ... }` builder and its shader helpers.
    The receiver block `init` is modelled as the list of builder statements it
    runs, in order; a shader helper's code lambda as the text it returns. */
module Dsl {
  import opened Outcomes
  import opened Gl
  import opened Shaders
  import opened Programs
  import opened Uniforms
  import opened Attributes

  datatype InitStep =
    | VertexShader(code: string)
    | FragmentShader(code: string)
    | GeometryShader(code: string)
    | DeclareAttribute(name: string, arity: int)
    | DeclareUniform(name: string, size: int)
    | DeclareMatrixUniform(name: string, size: int)

  /** The attribute map a block declares: name to arity, the last declaration winning. */
  function AttributeDecls(init: seq<InitStep>): map<string, int>
    decreases |init|
  {
    if init == [] then map[]
    else
      var m := AttributeDecls(init[..|init| - 1]);
      match init[|init| - 1]
      case DeclareAttribute(n, a) => m[n := a]
      case _ => m
  }

  /** The uniform map a block declares: name to (size, matrix). */
  function UniformDecls(init: seq<InitStep>): map<string, (int, bool)>
    decreases |init|
  {
    if init == [] then map[]
    else
      var m := UniformDecls(init[..|init| - 1]);
      match init[|init| - 1]
      case DeclareUniform(n, s) => m[n := (s, false)]
      case DeclareMatrixUniform(n, s) => m[n := (s, true)]
      case _ => m
  }

  /** A name is declared exactly when some statement of the block declares it,
      and the arity is that of its last declaration. */
  lemma {:induction false} AttributeDeclsMeaning(init: seq<InitStep>, n: string)
    ensures n in AttributeDecls(init) <==>
              exists i :: 0 <= i < |init| && init[i].DeclareAttribute? && init[i].name == n
    ensures n in AttributeDecls(init) ==>
              exists i :: && 0 <= i < |init| && init[i] == DeclareAttribute(n, AttributeDecls(init)[n])
                          && forall j :: i < j < |init| ==> !(init[j].DeclareAttribute? && init[j].name == n)
    decreases |init|
  {
    if init != [] {
      var front := init[..|init| - 1];
      AttributeDeclsMeaning(front, n);
      assert forall i :: 0 <= i < |front| ==> front[i] == init[i];
      var last := init[|init| - 1];
      if last.DeclareAttribute? && last.name == n {
        assert init[|init| - 1] == DeclareAttribute(n, AttributeDecls(init)[n]);
      } else if n in AttributeDecls(init) {
        assert AttributeDecls(init)[n] == AttributeDecls(front)[n];
      }
    }
  }

  /** A statement that declares a uniform, vector or matrix, under name `n`. */
  predicate DeclaresUniform(st: InitStep, n: string) {
    (st.DeclareUniform? || st.DeclareMatrixUniform?) && st.name == n
  }

  /** A name is a declared uniform exactly when some statement of the block
      declares it, and its shape is that of its last declaration. */
  lemma {:induction false} UniformDeclsMeaning(init: seq<InitStep>, n: string)
    ensures n in UniformDecls(init) <==> exists i :: 0 <= i < |init| && DeclaresUniform(init[i], n)
    ensures n in UniformDecls(init) ==>
              exists i :: && 0 <= i < |init| && DeclaresUniform(init[i], n)
                          && UniformDecls(init)[n] == (init[i].size, init[i].DeclareMatrixUniform?)
                          && forall j :: i < j < |init| ==> !DeclaresUniform(init[j], n)
    decreases |init|
  {
    if init != [] {
      var front := init[..|init| - 1];
      UniformDeclsMeaning(front, n);
      assert forall i :: 0 <= i < |front| ==> front[i] == init[i];
      var last := init[|init| - 1];
      if DeclaresUniform(last, n) {
        assert UniformDecls(init)[n] == (last.size, last.DeclareMatrixUniform?);
      } else if n in UniformDecls(init) {
        assert UniformDecls(init)[n] == UniformDecls(front)[n];
      }
    }
  }

  /** The stages the shader statements of a block attach, in order. */
  function Stages(init: seq<InitStep>): seq<ShaderType>
    decreases |init|
  {
    if init == [] then []
    else
      var s := Stages(init[..|init| - 1]);
      match init[|init| - 1]
      case VertexShader(_) => s + [Vertex]
      case FragmentShader(_) => s + [Fragment]
      case GeometryShader(_) => s + [Geometry]
      case _ => s
  }

  /** The statements that construct a shader, and so take the next object name. */
  predicate IsShaderStep(step: InitStep) {
    step.VertexShader? || step.FragmentShader? || step.GeometryShader?
  }

  /** What a shader statement logs and throws when its shader gets `name`:
      source, compile, and the attach only if the compile succeeded. */
  function ShaderStepRun(gl: Gl, prog: int, name: int, stage: ShaderType, code: string): Run {
    var compile := [ShaderSource(name, code), CompileShader(name)];
    if gl.compileOracle(ToGLConstant(stage), code) then Issued(compile + [Call.AttachShader(prog, name)])
    else Run(Fail(CompileFailed(gl.shaderInfoLog(name))), compile)
  }

  /** What one statement of the block logs and throws: declarations log
      nothing, and a uniform declaration throws what the Uniform checks do. */
  function InitStepRun(gl: Gl, prog: int, name: int, step: InitStep): Run {
    match step
    case VertexShader(code) => ShaderStepRun(gl, prog, name, Vertex, code)
    case FragmentShader(code) => ShaderStepRun(gl, prog, name, Fragment, code)
    case GeometryShader(code) => ShaderStepRun(gl, prog, name, Geometry, code)
    case DeclareAttribute(_, _) => Done
    case DeclareUniform(_, size) => Run(CheckShape(size, false), [])
    case DeclareMatrixUniform(_, size) => Run(CheckShape(size, true), [])
  }

  /** The receiver block run in order up to the first statement that throws;
      its shaders take the names after `last`, one each. */
  function InitRun(gl: Gl, prog: int, last: int, init: seq<InitStep>): Run
    decreases |init|
  {
    if init == [] then Done
    else
      var next := if IsShaderStep(init[0]) then last + 1 else last;
      Then(InitStepRun(gl, prog, last + 1, init[0]), InitRun(gl, prog, next, init[1..]))
  }

  /** The names of the first `count` shaders created after the program `prog`. */
  function ShaderNames(prog: int, count: nat): (r: set<int>)
    ensures forall n :: n in r <==> prog < n <= prog + count
    decreases count
  {
    if count == 0 then {} else ShaderNames(prog, count - 1) + {prog + count}
  }

  /** The calls detaching those shaders, in attach order. */
  function DetachNames(prog: int, count: nat): (r: seq<Call>)
    ensures |r| == count && forall i :: 0 <= i < count ==> r[i] == DetachShader(prog, prog + 1 + i)
  {
    seq(count, i requires 0 <= i < count => DetachShader(prog, prog + 1 + i))
  }

  /** Detaching shaders numbered consecutively after the program detaches those names in order. */
  lemma DetachCallsNumbered(prog: int, shaders: seq<Shader>)
    requires forall k :: 0 <= k < |shaders| ==> shaders[k].handle == prog + 1 + k
    ensures DetachCalls(prog, shaders) == DetachNames(prog, |shaders|)
  {
  }

  /** vertexShader, fragmentShader, geometryShader: construct the shader (which
      compiles it), then attach it. A compile failure throws before the attach. */
  method AttachStage(gl: Gl, prog: Program, stage: ShaderType, code: string) returns (o: Outcome)
    modifies gl`nextName, gl`shaderStages, gl`sources, gl`compiled, gl`log, gl`attachments
    modifies prog`attachedShaders
    ensures gl.nextName == old(gl.nextName) + 1
    ensures var sr := ShaderStepRun(gl, prog.handle, gl.nextName, stage, code);
            o == sr.outcome && gl.log == old(gl.log) + sr.calls
    ensures o.Pass? <==> gl.compileOracle(ToGLConstant(stage), code)
    ensures o.Fail? ==> && o.error == CompileFailed(gl.shaderInfoLog(gl.nextName))
                        && prog.attachedShaders == old(prog.attachedShaders)
                        && gl.attachments == old(gl.attachments)
    ensures o.Pass? ==> && |prog.attachedShaders| == |old(prog.attachedShaders)| + 1
                        && prog.attachedShaders[..|old(prog.attachedShaders)|] == old(prog.attachedShaders)
                        && var s := prog.attachedShaders[|old(prog.attachedShaders)|];
                           && fresh(s) && s.stage == stage && s.source == code
                           && s.handle == gl.nextName && gl.IsCompiled(s.handle)
                           && gl.Attached(prog.handle) == old(gl.Attached(prog.handle)) + {s.handle}
  {
    var r := NewShader(gl, stage, code);
    if r.Failure? {
      return Fail(r.error);
    }
    prog.AttachShader(gl, r.value);
    assert prog.attachedShaders[..|old(prog.attachedShaders)|] == old(prog.attachedShaders);
    o := Pass;
  }

  method VertexShaderOf(gl: Gl, prog: Program, code: string) returns (o: Outcome)
    modifies gl`nextName, gl`shaderStages, gl`sources, gl`compiled, gl`log, gl`attachments
    modifies prog`attachedShaders
    ensures o.Pass? <==> gl.compileOracle(GL_VERTEX_SHADER, code)
    ensures gl.nextName == old(gl.nextName) + 1
    ensures var sr := ShaderStepRun(gl, prog.handle, gl.nextName, Vertex, code);
            o == sr.outcome && gl.log == old(gl.log) + sr.calls
    ensures o.Fail? ==> prog.attachedShaders == old(prog.attachedShaders) && gl.attachments == old(gl.attachments)
    ensures o.Pass? ==> && |prog.attachedShaders| == |old(prog.attachedShaders)| + 1
                        && prog.attachedShaders[..|old(prog.attachedShaders)|] == old(prog.attachedShaders)
                        && prog.attachedShaders[|old(prog.attachedShaders)|].stage == Vertex
                        && prog.attachedShaders[|old(prog.attachedShaders)|].handle == gl.nextName
                        && gl.Attached(prog.handle) == old(gl.Attached(prog.handle)) + {gl.nextName}
  {
    o := AttachStage(gl, prog, Vertex, code);
  }

  method FragmentShaderOf(gl: Gl, prog: Program, code: string) returns (o: Outcome)
    modifies gl`nextName, gl`shaderStages, gl`sources, gl`compiled, gl`log, gl`attachments
    modifies prog`attachedShaders
    ensures o.Pass? <==> gl.compileOracle(GL_FRAGMENT_SHADER, code)
    ensures gl.nextName == old(gl.nextName) + 1
    ensures var sr := ShaderStepRun(gl, prog.handle, gl.nextName, Fragment, code);
            o == sr.outcome && gl.log == old(gl.log) + sr.calls
    ensures o.Fail? ==> prog.attachedShaders == old(prog.attachedShaders) && gl.attachments == old(gl.attachments)
    ensures o.Pass? ==> && |prog.attachedShaders| == |old(prog.attachedShaders)| + 1
                        && prog.attachedShaders[..|old(prog.attachedShaders)|] == old(prog.attachedShaders)
                        && prog.attachedShaders[|old(prog.attachedShaders)|].stage == Fragment
                        && prog.attachedShaders[|old(prog.attachedShaders)|].handle == gl.nextName
                        && gl.Attached(prog.handle) == old(gl.Attached(prog.handle)) + {gl.nextName}
  {
    o := AttachStage(gl, prog, Fragment, code);
  }

  method GeometryShaderOf(gl: Gl, prog: Program, code: string) returns (o: Outcome)
    modifies gl`nextName, gl`shaderStages, gl`sources, gl`compiled, gl`log, gl`attachments
    modifies prog`attachedShaders
    ensures o.Pass? <==> gl.compileOracle(GL_GEOMETRY_SHADER, code)
    ensures gl.nextName == old(gl.nextName) + 1
    ensures var sr := ShaderStepRun(gl, prog.handle, gl.nextName, Geometry, code);
            o == sr.outcome && gl.log == old(gl.log) + sr.calls
    ensures o.Fail? ==> prog.attachedShaders == old(prog.attachedShaders) && gl.attachments == old(gl.attachments)
    ensures o.Pass? ==> && |prog.attachedShaders| == |old(prog.attachedShaders)| + 1
                        && prog.attachedShaders[..|old(prog.attachedShaders)|] == old(prog.attachedShaders)
                        && prog.attachedShaders[|old(prog.attachedShaders)|].stage == Geometry
                        && prog.attachedShaders[|old(prog.attachedShaders)|].handle == gl.nextName
                        && gl.Attached(prog.handle) == old(gl.Attached(prog.handle)) + {gl.nextName}
  {
    o := AttachStage(gl, prog, Geometry, code);
  }

  /** The maps of `prog` are what `done` declares, each binding under its own name. */
  ghost predicate Declared(prog: Program, done: seq<InitStep>)
    reads prog`attributes, prog`uniforms
  {
    && prog.Valid()
    && prog.attributes.Keys == AttributeDecls(done).Keys
    && (forall n :: n in prog.attributes ==> prog.attributes[n].arity == AttributeDecls(done)[n])
    && prog.uniforms.Keys == UniformDecls(done).Keys
    && (forall n :: n in prog.uniforms ==>
          (prog.uniforms[n].size, prog.uniforms[n].matrix) == UniformDecls(done)[n])
  }

  /** The maps and the attach list of `prog` are what `done` declares and attaches. */
  ghost predicate Built(prog: Program, done: seq<InitStep>)
    reads prog`attributes, prog`uniforms, prog`attachedShaders
  {
    && Declared(prog, done)
    && |prog.attachedShaders| == |Stages(done)|
    && (forall i :: 0 <= i < |Stages(done)| ==> prog.attachedShaders[i].stage == Stages(done)[i])
  }

  /** No binding of `prog` has resolved its location yet. */
  ghost predicate Unresolved(prog: Program)
    reads prog`attributes, prog`uniforms, prog.attributes.Values`ident, prog.uniforms.Values`ident
  {
    && (forall a :: a in prog.attributes.Values ==> a.ident == None)
    && (forall u :: u in prog.uniforms.Values ==> u.ident == None)
  }

  /** What one more statement adds to the declarations and the stages. */
  lemma DeclsAfter(done: seq<InitStep>, step: InitStep)
    ensures AttributeDecls(done + [step]) ==
              if step.DeclareAttribute? then AttributeDecls(done)[step.name := step.arity] else AttributeDecls(done)
    ensures UniformDecls(done + [step]) ==
              match step
              case DeclareUniform(n, size) => UniformDecls(done)[n := (size, false)]
              case DeclareMatrixUniform(n, size) => UniformDecls(done)[n := (size, true)]
              case _ => UniformDecls(done)
    ensures Stages(done + [step]) ==
              match step
              case VertexShader(_) => Stages(done) + [Vertex]
              case FragmentShader(_) => Stages(done) + [Fragment]
              case GeometryShader(_) => Stages(done) + [Geometry]
              case _ => Stages(done)
  {
    var whole := done + [step];
    assert whole[..|whole| - 1] == done;
  }

  /** A vertexShader, fragmentShader or geometryShader statement of the block. */
  method ShaderStatement(gl: Gl, prog: Program, ghost done: seq<InitStep>, step: InitStep) returns (o: Outcome)
    requires IsShaderStep(step) && Built(prog, done)
    modifies gl`nextName, gl`shaderStages, gl`sources, gl`compiled, gl`log, gl`attachments
    modifies prog`attachedShaders
    ensures gl.nextName == old(gl.nextName) + 1
    ensures var sr := InitStepRun(gl, prog.handle, gl.nextName, step);
            o == sr.outcome && gl.log == old(gl.log) + sr.calls
    ensures o.Pass? ==> && Built(prog, done + [step])
                        && |prog.attachedShaders| == |old(prog.attachedShaders)| + 1
                        && prog.attachedShaders == old(prog.attachedShaders) + [prog.attachedShaders[|old(prog.attachedShaders)|]]
                        && prog.attachedShaders[|old(prog.attachedShaders)|].handle == gl.nextName
                        && gl.Attached(prog.handle) == old(gl.Attached(prog.handle)) + {gl.nextName}
    ensures gl.linked == old(gl.linked)
  {
    DeclsAfter(done, step);
    match step {
      case VertexShader(code) => o := VertexShaderOf(gl, prog, code);
      case FragmentShader(code) => o := FragmentShaderOf(gl, prog, code);
      case GeometryShader(code) => o := GeometryShaderOf(gl, prog, code);
    }
  }

  /** A declareAttribute, declareUniform or declareMatrixUniform statement of the
      block: nothing is logged, and a rejected uniform shape throws. */
  method DeclarationStatement(gl: Gl, prog: Program, ghost done: seq<InitStep>, step: InitStep) returns (o: Outcome)
    requires !IsShaderStep(step) && Built(prog, done)
    modifies prog`attributes, prog`uniforms
    ensures InitStepRun(gl, prog.handle, gl.nextName + 1, step) == Run(o, [])
    ensures o.Pass? ==> Built(prog, done + [step])
    ensures prog.Valid()
    ensures forall a :: a in prog.attributes.Values ==> a in old(prog.attributes.Values) || fresh(a)
    ensures forall u :: u in prog.uniforms.Values ==> u in old(prog.uniforms.Values) || fresh(u)
    ensures old(Unresolved(prog)) ==> Unresolved(prog)
  {
    DeclsAfter(done, step);
    match step {
      case DeclareAttribute(n, a) => prog.DeclareAttribute(n, a); o := Pass;
      case DeclareUniform(n, s) => o := prog.DeclareUniform(n, s);
      case DeclareMatrixUniform(n, s) => o := prog.DeclareMatrixUniform(n, s);
    }
  }

  /** What running the first `i` statements of the block on a program just
      created leaves behind: the maps and attach list they declare, unresolved
      bindings, consecutively named shaders all attached, and the calls `done`
      logged after `log0`, which with the rest of the block make up its run. */
  ghost predicate InitProgress(gl: Gl, prog: Program, init: seq<InitStep>, i: int,
                               attached0: set<int>, log0: seq<Call>, done: seq<Call>)
    reads gl, prog, prog.attributes.Values, prog.uniforms.Values
  {
    && 0 <= i <= |init|
    && Built(prog, init[..i])
    && gl.nextName == prog.handle + |prog.attachedShaders|
    && (forall k :: 0 <= k < |prog.attachedShaders| ==> prog.attachedShaders[k].handle == prog.handle + 1 + k)
    && gl.Attached(prog.handle) == attached0 + ShaderNames(prog.handle, |prog.attachedShaders|)
    && gl.log == log0 + done
    && Then(Issued(done), InitRun(gl, prog.handle, gl.nextName, init[i..])) == InitRun(gl, prog.handle, prog.handle, init)
    && Unresolved(prog)
  }

  /** A shader statement of the block: on a normal return the progress covers
      one more statement; a throw ends the block's run there. */
  method InitShaderStatement(gl: Gl, prog: Program, init: seq<InitStep>, i: int,
                             ghost attached0: set<int>, ghost log0: seq<Call>, ghost done: seq<Call>)
      returns (o: Outcome, ghost done': seq<Call>)
    requires 0 <= i < |init| && IsShaderStep(init[i]) && InitProgress(gl, prog, init, i, attached0, log0, done)
    modifies gl`nextName, gl`shaderStages, gl`sources, gl`compiled, gl`log, gl`attachments
    modifies prog`attachedShaders
    ensures o.Pass? ==> InitProgress(gl, prog, init, i + 1, attached0, log0, done')
    ensures o.Fail? ==> var ir := InitRun(gl, prog.handle, prog.handle, init);
                        o == ir.outcome && gl.log == log0 + ir.calls
    ensures gl.linked == old(gl.linked)
    ensures prog.attributes == old(prog.attributes) && prog.uniforms == old(prog.uniforms)
  {
    InitRunStep(gl, prog.handle, gl.nextName, init, i, done);
    ghost var sr := InitStepRun(gl, prog.handle, gl.nextName + 1, init[i]);
    ghost var before := prog.attachedShaders;
    o := ShaderStatement(gl, prog, init[..i], init[i]);
    done' := done + sr.calls;
    if o.Pass? {
      assert init[..i] + [init[i]] == init[..i + 1];
      assert ShaderNames(prog.handle, |before| + 1) == ShaderNames(prog.handle, |before|) + {gl.nextName};
      assert forall k :: 0 <= k < |before| ==> prog.attachedShaders[k] == before[k];
    }
  }

  /** A declaration statement of the block, likewise. */
  method InitDeclarationStatement(gl: Gl, prog: Program, init: seq<InitStep>, i: int,
                                  ghost attached0: set<int>, ghost log0: seq<Call>, ghost done: seq<Call>)
      returns (o: Outcome, ghost done': seq<Call>)
    requires 0 <= i < |init| && !IsShaderStep(init[i]) && InitProgress(gl, prog, init, i, attached0, log0, done)
    modifies prog`attributes, prog`uniforms
    ensures o.Pass? ==> InitProgress(gl, prog, init, i + 1, attached0, log0, done')
    ensures o.Fail? ==> var ir := InitRun(gl, prog.handle, prog.handle, init);
                        o == ir.outcome && gl.log == log0 + ir.calls
    ensures forall a :: a in prog.attributes.Values ==> a in old(prog.attributes.Values) || fresh(a)
    ensures forall u :: u in prog.uniforms.Values ==> u in old(prog.uniforms.Values) || fresh(u)
  {
    InitRunStep(gl, prog.handle, gl.nextName, init, i, done);
    o := DeclarationStatement(gl, prog, init[..i], init[i]);
    done' := done;
    if o.Pass? {
      assert init[..i] + [init[i]] == init[..i + 1];
      assert done + [] == done;
    }
  }

  /** Running the rest of the block from statement `i` is running that
      statement, then, if it returned normally, the rest from `i + 1`. */
  lemma InitRunStep(gl: Gl, prog: int, last: int, init: seq<InitStep>, i: int, done: seq<Call>)
    requires 0 <= i < |init|
    ensures var sr := InitStepRun(gl, prog, last + 1, init[i]);
            var rest := InitRun(gl, prog, if IsShaderStep(init[i]) then last + 1 else last, init[i + 1..]);
            && (sr.outcome.Fail? ==> Then(Issued(done), InitRun(gl, prog, last, init[i..])) == Run(sr.outcome, done + sr.calls))
            && (sr.outcome.Pass? ==> Then(Issued(done), InitRun(gl, prog, last, init[i..])) == Then(Issued(done + sr.calls), rest))
  {
    assert init[i..][0] == init[i] && init[i..][1..] == init[i + 1..];
    var sr := InitStepRun(gl, prog, last + 1, init[i]);
    var rest := InitRun(gl, prog, if IsShaderStep(init[i]) then last + 1 else last, init[i + 1..]);
    ThenAssociative(Issued(done), sr, rest);
  }

  /** `prog.init()` on a program just created: the statements in order, stopping
      at the first that throws. */
  method RunInit(gl: Gl, prog: Program, init: seq<InitStep>) returns (o: Outcome)
    requires Built(prog, []) && prog.attachedShaders == [] && gl.nextName == prog.handle
    modifies gl`nextName, gl`shaderStages, gl`sources, gl`compiled, gl`log, gl`attachments
    modifies prog`attachedShaders, prog`attributes, prog`uniforms
    ensures var ir := InitRun(gl, prog.handle, prog.handle, init);
            o == ir.outcome && gl.log == old(gl.log) + ir.calls
    ensures gl.linked == old(gl.linked)
    ensures o.Pass? ==> && Built(prog, init)
                        && gl.nextName == prog.handle + |prog.attachedShaders|
                        && (forall k :: 0 <= k < |prog.attachedShaders| ==> prog.attachedShaders[k].handle == prog.handle + 1 + k)
                        && gl.Attached(prog.handle) == old(gl.Attached(prog.handle)) + ShaderNames(prog.handle, |prog.attachedShaders|)
                        && (forall a :: a in prog.attributes.Values ==> fresh(a))
                        && (forall u :: u in prog.uniforms.Values ==> fresh(u))
                        && Unresolved(prog)
  {
    ghost var attached0 := gl.Attached(prog.handle);
    ghost var done: seq<Call> := [];
    var i := 0;
    while i < |init|
      // named, so the progress is carried as one fact rather than conjunct by conjunct
      invariant var ok := InitProgress(gl, prog, init, i, attached0, old(gl.log), done); ok
      invariant forall a :: a in prog.attributes.Values ==> fresh(a)
      invariant forall u :: u in prog.uniforms.Values ==> fresh(u)
      invariant gl.linked == old(gl.linked)
    {
      if IsShaderStep(init[i]) {
        o, done := InitShaderStatement(gl, prog, init, i, attached0, old(gl.log), done);
      } else {
        o, done := InitDeclarationStatement(gl, prog, init, i, attached0, old(gl.log), done);
      }
      if o.Fail? {
        return;
      }
      i := i + 1;
    }
    assert init[..i] == init && init[i..] == [];
    o := Pass;
  }

  /** Every attribute and uniform the block declares has a location in the linked program. */
  predicate BindingsFound(gl: Gl, prog: int, init: seq<InitStep>) {
    && (forall n :: n in AttributeDecls(init) ==> gl.attribLocation(prog, n) != -1)
    && (forall n :: n in UniformDecls(init) ==> gl.uniformLocation(prog, n) != -1)
  }

  /** After link, a binding still unresolved before it yields its lazy lookup:
      on the built program that is the location query for its own name. */
  lemma LinkedBindings(gl: Gl, prog: Program, init: seq<InitStep>)
    requires Declared(prog, init) && gl.IsLinked(prog.handle)
    requires forall a :: a in prog.attributes.Values ==> a.Resolution(gl) == a.Lookup(gl)
    requires forall u :: u in prog.uniforms.Values ==> u.Resolution(gl) == u.Lookup(gl)
    ensures (forall a :: a in prog.attributes.Values ==> a.Resolution(gl).Success?) <==>
              forall n :: n in AttributeDecls(init) ==> gl.attribLocation(prog.handle, n) != -1
    ensures (forall u :: u in prog.uniforms.Values ==> u.Resolution(gl).Success?) <==>
              forall n :: n in UniformDecls(init) ==> gl.uniformLocation(prog.handle, n) != -1
    ensures forall a :: a in prog.attributes.Values && a.Resolution(gl).Failure? ==>
              a.name in AttributeDecls(init) && gl.attribLocation(prog.handle, a.name) == -1
              && a.Resolution(gl) == Failure(InvalidAttribute(a.name))
    ensures forall u :: u in prog.uniforms.Values && u.Resolution(gl).Failure? ==>
              u.name in UniformDecls(init) && gl.uniformLocation(prog.handle, u.name) == -1
              && u.Resolution(gl) == Failure(InvalidUniform(u.name))
  {
    assert forall n :: n in prog.attributes ==> prog.attributes[n] in prog.attributes.Values;
    assert forall n :: n in prog.uniforms ==> prog.uniforms[n] in prog.uniforms.Values;
  }

  /** link on the program the block built, in terms of what the block declared. */
  method LinkBuilt(gl: Gl, prog: Program, init: seq<InitStep>) returns (o: Outcome)
    requires Declared(prog, init)
    requires Unresolved(prog)
    modifies gl`linked, gl`log, gl`attachments, prog`attachedShaders
    modifies prog.attributes.Values`ident, prog.uniforms.Values`ident
    ensures Declared(prog, init) && prog.attachedShaders == (if gl.IsLinked(prog.handle) then [] else old(prog.attachedShaders))
    ensures gl.linked == old(gl.linked)[prog.handle := gl.linkOracle(prog.handle, old(gl.Attached(prog.handle)))]
    ensures !gl.IsLinked(prog.handle) ==>
              o == Fail(LinkFailed(gl.programInfoLog(prog.handle))) && gl.log == old(gl.log) + [LinkProgram(prog.handle)]
    ensures gl.IsLinked(prog.handle) ==>
              && gl.log == old(gl.log) + [LinkProgram(prog.handle)] + DetachCalls(prog.handle, old(prog.attachedShaders))
              && (o.Pass? <==> BindingsFound(gl, prog.handle, init))
    ensures gl.IsLinked(prog.handle) && (exists n :: n in AttributeDecls(init) && gl.attribLocation(prog.handle, n) == -1) ==>
              exists n :: n in AttributeDecls(init) && gl.attribLocation(prog.handle, n) == -1 && o == Fail(InvalidAttribute(n))
    ensures gl.IsLinked(prog.handle) && o.Fail? && (forall n :: n in AttributeDecls(init) ==> gl.attribLocation(prog.handle, n) != -1) ==>
              exists n :: n in UniformDecls(init) && gl.uniformLocation(prog.handle, n) == -1 && o == Fail(InvalidUniform(n))
    ensures o.Pass? ==> && gl.IsLinked(prog.handle)
                        && (forall a :: a in prog.attributes.Values ==> a.ident.Some?)
                        && (forall u :: u in prog.uniforms.Values ==> u.ident.Some?)
  {
    o := prog.Link(gl);
    if gl.IsLinked(prog.handle) {
      LinkedBindings(gl, prog, init);
      if exists n :: n in AttributeDecls(init) && gl.attribLocation(prog.handle, n) == -1 {
        var n :| n in AttributeDecls(init) && gl.attribLocation(prog.handle, n) == -1;
        assert prog.attributes[n] in prog.attributes.Values;
      }
    }
  }

  /** program: a fresh Program, the receiver block, then link. The block's
      statements run in order until one throws; link throws when the program
      does not link, and otherwise detaches the shaders and resolves the
      attributes, then the uniforms. Only a linked program whose every declared
      binding resolved is returned. */
  method BuildProgram(gl: Gl, init: seq<InitStep>) returns (r: Result<Program>)
    modifies gl`nextName, gl`shaderStages, gl`sources, gl`compiled, gl`log, gl`attachments, gl`linked
    ensures var h := old(gl.nextName) + 1;
            var ir := InitRun(gl, h, h, init);
            ir.outcome.Fail? ==> && r == Failure(ir.outcome.error)
                                 && gl.log == old(gl.log) + ir.calls && gl.linked == old(gl.linked)
    ensures var h := old(gl.nextName) + 1;
            var ir := InitRun(gl, h, h, init);
            ir.outcome.Pass? ==>
              gl.linked == old(gl.linked)[h := gl.linkOracle(h, old(gl.Attached(h)) + ShaderNames(h, |Stages(init)|))]
    ensures var h := old(gl.nextName) + 1;
            var ir := InitRun(gl, h, h, init);
            ir.outcome.Pass? && !gl.IsLinked(h) ==>
              && r == Failure(LinkFailed(gl.programInfoLog(h)))
              && gl.log == old(gl.log) + ir.calls + [LinkProgram(h)]
    ensures var h := old(gl.nextName) + 1;
            var ir := InitRun(gl, h, h, init);
            ir.outcome.Pass? && gl.IsLinked(h) ==>
              && gl.log == old(gl.log) + ir.calls + [LinkProgram(h)] + DetachNames(h, |Stages(init)|)
              && (r.Success? <==> BindingsFound(gl, h, init))
    ensures var h := old(gl.nextName) + 1;
            InitRun(gl, h, h, init).outcome.Pass? && gl.IsLinked(h)
            && (exists n :: n in AttributeDecls(init) && gl.attribLocation(h, n) == -1) ==>
              exists n :: n in AttributeDecls(init) && gl.attribLocation(h, n) == -1 && r == Failure(InvalidAttribute(n))
    ensures var h := old(gl.nextName) + 1;
            InitRun(gl, h, h, init).outcome.Pass? && gl.IsLinked(h) && r.Failure?
            && (forall n :: n in AttributeDecls(init) ==> gl.attribLocation(h, n) != -1) ==>
              exists n :: n in UniformDecls(init) && gl.uniformLocation(h, n) == -1 && r == Failure(InvalidUniform(n))
    ensures r.Success? ==> && fresh(r.value) && r.value.handle == old(gl.nextName) + 1
                           && gl.IsLinked(r.value.handle)
                           && r.value.attachedShaders == []
                           && Declared(r.value, init)
                           && (forall a :: a in r.value.attributes.Values ==> a.ident.Some?)
                           && (forall u :: u in r.value.uniforms.Values ==> u.ident.Some?)
  {
    var prog := new Program(gl);
    var o := RunInit(gl, prog, init);
    if o.Fail? {
      return Failure(o.error);
    }
    DetachCallsNumbered(prog.handle, prog.attachedShaders);
    o := LinkBuilt(gl, prog, init);
    if o.Fail? {
      return Failure(o.error);
    }
    r := Success(prog);
  }
}
