/** Program.kt: a GL program object with its attached shaders and its
    name-to-binding maps for attributes and uniforms. */
module Programs {
  import opened Outcomes
  import opened Gl
  import opened Shaders
  import opened Attributes
  import opened Uniforms

  /** The shader names of an attach list. */
  function ShaderHandles(s: seq<Shader>): set<int> {
    set i | 0 <= i < |s| :: s[i].handle
  }

  /** The calls detachShaders issues for an attach list, in list order. */
  function DetachCalls(program: int, s: seq<Shader>): (r: seq<Call>)
    ensures |r| == |s|
    ensures forall i :: 0 <= i < |s| ==> r[i] == DetachShader(program, s[i].handle)
  {
    seq(|s|, i requires 0 <= i < |s| => DetachShader(program, s[i].handle))
  }

  class Program {
    /** The lazily created program name, created here once. */
    const handle: int
    var attributes: map<string, Attribute>
    var uniforms: map<string, Uniform>
    var attachedShaders: seq<Shader>

    /** Every binding is stored under its own name and belongs to this program. */
    predicate Valid()
      reads this`attributes, this`uniforms
    {
      && (forall n :: n in attributes ==> attributes[n].name == n && attributes[n].programHandle == handle)
      && (forall n :: n in uniforms ==> uniforms[n].name == n && uniforms[n].programHandle == handle)
    }

    constructor (gl: Gl)
      modifies gl`nextName
      ensures handle == old(gl.nextName) + 1 && gl.nextName == handle && handle > 0
      ensures attributes == map[] && uniforms == map[] && attachedShaders == []
      ensures Valid()
    {
      var h := gl.NewName();
      handle := h;
      attributes, uniforms, attachedShaders := map[], map[], [];
    }

    /** attachShader: glAttachShader, then append to the list. */
    method AttachShader(gl: Gl, shader: Shader)
      modifies gl`attachments, gl`log, this`attachedShaders
      ensures attachedShaders == old(attachedShaders) + [shader]
      ensures gl.log == old(gl.log) + [Call.AttachShader(handle, shader.handle)]
      ensures gl.Attached(handle) == old(gl.Attached(handle)) + {shader.handle}
      ensures forall p :: p != handle ==> gl.Attached(p) == old(gl.Attached(p))
    {
      gl.AttachShader(handle, shader.handle);
      attachedShaders := attachedShaders + [shader];
    }

    /** declareAttribute: a new binding under `name`, replacing any earlier one. */
    method DeclareAttribute(name: string, arity: int)
      requires Valid()
      modifies this`attributes
      ensures Valid()
      ensures name in attributes && fresh(attributes[name])
      ensures attributes == old(attributes)[name := attributes[name]]
      ensures attributes[name].arity == arity && attributes[name].ident == None
    {
      var a := new Attribute(handle, name, arity);
      attributes := attributes[name := a];
    }

    /** declareUniform and declareMatrixUniform: the Uniform constructor's
        checks run before `put`, so a rejected shape leaves the map as it was. */
    method DeclareUniformOf(name: string, size: int, matrix: bool) returns (o: Outcome)
      requires Valid()
      modifies this`uniforms
      ensures Valid()
      ensures o == CheckShape(size, matrix)
      ensures o.Fail? ==> uniforms == old(uniforms)
      ensures o.Pass? ==> && name in uniforms && fresh(uniforms[name])
                          && uniforms == old(uniforms)[name := uniforms[name]]
                          && uniforms[name].size == size && uniforms[name].matrix == matrix
                          && uniforms[name].ident == None
    {
      var r := NewUniform(handle, name, size, matrix);
      if r.Failure? {
        return Fail(r.error);
      }
      uniforms := uniforms[name := r.value];
      o := Pass;
    }

    method DeclareUniform(name: string, size: int) returns (o: Outcome)
      requires Valid()
      modifies this`uniforms
      ensures Valid()
      ensures o == CheckShape(size, false)
      ensures o.Fail? ==> uniforms == old(uniforms)
      ensures o.Pass? ==> && name in uniforms && fresh(uniforms[name])
                          && uniforms == old(uniforms)[name := uniforms[name]]
                          && uniforms[name].size == size && !uniforms[name].matrix
                          && uniforms[name].ident == None
    {
      o := DeclareUniformOf(name, size, false);
    }

    method DeclareMatrixUniform(name: string, size: int) returns (o: Outcome)
      requires Valid()
      modifies this`uniforms
      ensures Valid()
      ensures o == CheckShape(size, true)
      ensures size == 1 ==> o == Fail(MatrixTooSmall) && uniforms == old(uniforms)
      ensures o.Fail? ==> uniforms == old(uniforms)
      ensures o.Pass? ==> && name in uniforms && fresh(uniforms[name])
                          && uniforms == old(uniforms)[name := uniforms[name]]
                          && uniforms[name].size == size && uniforms[name].matrix
                          && uniforms[name].ident == None
    {
      o := DeclareUniformOf(name, size, true);
    }

    /** get: the declared attribute, or IllegalStateException for an undeclared name. */
    method Get(key: string) returns (r: Result<Attribute>)
      ensures r.Success? <==> key in attributes
      ensures r.Success? ==> r.value == attributes[key]
      ensures r.Failure? ==> r.error == UndefinedAttribute(key)
    {
      if key in attributes {
        return Success(attributes[key]);
      }
      r := Failure(UndefinedAttribute(key));
    }

    /** getUniform: the declared uniform, or IllegalStateException for an undeclared name. */
    method GetUniform(key: string) returns (r: Result<Uniform>)
      ensures r.Success? <==> key in uniforms
      ensures r.Success? ==> r.value == uniforms[key]
      ensures r.Failure? ==> r.error == UndefinedUniform(key)
    {
      if key in uniforms {
        return Success(uniforms[key]);
      }
      r := Failure(UndefinedUniform(key));
    }

    /** isLinked: GL_LINK_STATUS == GL_TRUE. */
    method IsLinked(gl: Gl) returns (b: bool)
      ensures b == gl.IsLinked(handle)
    {
      b := handle in gl.linked && gl.linked[handle];
    }

    /** detachShaders: glDetachShader for each shader in attach order, then clear. */
    method DetachShaders(gl: Gl)
      modifies gl`attachments, gl`log, this`attachedShaders
      ensures attachedShaders == []
      ensures gl.log == old(gl.log) + DetachCalls(handle, old(attachedShaders))
      ensures gl.Attached(handle) == old(gl.Attached(handle)) - ShaderHandles(old(attachedShaders))
      ensures forall p :: p != handle ==> gl.Attached(p) == old(gl.Attached(p))
    {
      var i := 0;
      while i < |attachedShaders|
        invariant 0 <= i <= |attachedShaders|
        invariant attachedShaders == old(attachedShaders)
        invariant gl.log == old(gl.log) + DetachCalls(handle, attachedShaders[..i])
        invariant gl.Attached(handle) == old(gl.Attached(handle)) - ShaderHandles(attachedShaders[..i])
        invariant forall p :: p != handle ==> gl.Attached(p) == old(gl.Attached(p))
      {
        gl.DetachShader(handle, attachedShaders[i].handle);
        assert attachedShaders[..i + 1] == attachedShaders[..i] + [attachedShaders[i]];
        assert ShaderHandles(attachedShaders[..i + 1]) == ShaderHandles(attachedShaders[..i]) + {attachedShaders[i].handle};
        assert DetachCalls(handle, attachedShaders[..i + 1])
            == DetachCalls(handle, attachedShaders[..i]) + [DetachShader(handle, attachedShaders[i].handle)];
        i := i + 1;
      }
      assert attachedShaders[..i] == attachedShaders;
      attachedShaders := [];
    }

    /** lookupAttributes: force every declared attribute's lazy location. The
        HashMap's iteration order is unspecified, so the loop picks any
        unvisited binding; the first failure propagates. */
    method LookupAttributes(gl: Gl) returns (o: Outcome)
      modifies attributes.Values`ident
      ensures forall a :: a in attributes.Values ==> a.Resolution(gl) == old(a.Resolution(gl))
      ensures o.Pass? <==> forall a :: a in attributes.Values ==> a.Resolution(gl).Success?
      ensures o.Pass? ==> forall a :: a in attributes.Values ==> a.ident.Some?
      ensures o.Fail? ==> exists a :: a in attributes.Values && a.Resolution(gl) == Failure(o.error)
      ensures forall a :: a in attributes.Values && old(a.ident).Some? ==> a.ident == old(a.ident)
    {
      var remaining := attributes.Values;
      while remaining != {}
        invariant remaining <= attributes.Values
        invariant forall a :: a in attributes.Values ==> a.Resolution(gl) == old(a.Resolution(gl))
        invariant forall a :: a in attributes.Values - remaining ==> a.ident.Some?
        invariant forall a :: a in attributes.Values && old(a.ident).Some? ==> a.ident == old(a.ident)
        decreases |remaining|
      {
        var a :| a in remaining;
        var r := a.Ident(gl);
        if r.Failure? {
          return Fail(r.error);
        }
        remaining := remaining - {a};
      }
      o := Pass;
    }

    /** lookupUniforms: the same for every declared uniform. */
    method LookupUniforms(gl: Gl) returns (o: Outcome)
      modifies uniforms.Values`ident
      ensures forall u :: u in uniforms.Values ==> u.Resolution(gl) == old(u.Resolution(gl))
      ensures o.Pass? <==> forall u :: u in uniforms.Values ==> u.Resolution(gl).Success?
      ensures o.Pass? ==> forall u :: u in uniforms.Values ==> u.ident.Some?
      ensures o.Fail? ==> exists u :: u in uniforms.Values && u.Resolution(gl) == Failure(o.error)
      ensures forall u :: u in uniforms.Values && old(u.ident).Some? ==> u.ident == old(u.ident)
    {
      var remaining := uniforms.Values;
      while remaining != {}
        invariant remaining <= uniforms.Values
        invariant forall u :: u in uniforms.Values ==> u.Resolution(gl) == old(u.Resolution(gl))
        invariant forall u :: u in uniforms.Values - remaining ==> u.ident.Some?
        invariant forall u :: u in uniforms.Values && old(u.ident).Some? ==> u.ident == old(u.ident)
        decreases |remaining|
      {
        var u :| u in remaining;
        var r := u.Ident(gl);
        if r.Failure? {
          return Fail(r.error);
        }
        remaining := remaining - {u};
      }
      o := Pass;
    }

    /** link: glLinkProgram; on failure ProgramLinkException with the info log
        and nothing detached or resolved; on success detach every shader, then
        force every attribute and then every uniform. */
    method Link(gl: Gl) returns (o: Outcome)
      modifies gl`linked, gl`log, gl`attachments, this`attachedShaders
      modifies attributes.Values`ident, uniforms.Values`ident
      ensures gl.linked == old(gl.linked)[handle := gl.linkOracle(handle, old(gl.Attached(handle)))]
      ensures forall p :: p != handle ==> gl.Attached(p) == old(gl.Attached(p))
      ensures !gl.IsLinked(handle) ==>
                && o == Fail(LinkFailed(gl.programInfoLog(handle)))
                && gl.log == old(gl.log) + [LinkProgram(handle)]
                && attachedShaders == old(attachedShaders) && gl.attachments == old(gl.attachments)
                && (forall a :: a in attributes.Values ==> a.ident == old(a.ident))
                && (forall u :: u in uniforms.Values ==> u.ident == old(u.ident))
      ensures gl.IsLinked(handle) ==>
                && attachedShaders == []
                && gl.log == old(gl.log) + [LinkProgram(handle)] + DetachCalls(handle, old(attachedShaders))
                && gl.Attached(handle) == old(gl.Attached(handle)) - ShaderHandles(old(attachedShaders))
                && (o.Pass? <==> && (forall a :: a in attributes.Values ==> a.Resolution(gl).Success?)
                                 && (forall u :: u in uniforms.Values ==> u.Resolution(gl).Success?))
                && (o.Pass? ==> && (forall a :: a in attributes.Values ==> a.ident.Some?)
                                && (forall u :: u in uniforms.Values ==> u.ident.Some?))
      ensures o.Fail? && gl.IsLinked(handle) ==>
                || (exists a :: a in attributes.Values && a.Resolution(gl) == Failure(o.error))
                || (exists u :: u in uniforms.Values && u.Resolution(gl) == Failure(o.error))
      ensures gl.IsLinked(handle) && (exists a :: a in attributes.Values && a.Resolution(gl).Failure?) ==>
                && o.Fail? && (exists a :: a in attributes.Values && a.Resolution(gl) == Failure(o.error))
                && (forall u :: u in uniforms.Values ==> u.ident == old(u.ident))
      ensures forall a :: a in attributes.Values && old(a.ident).None? ==> a.Resolution(gl) == a.Lookup(gl)
      ensures forall u :: u in uniforms.Values && old(u.ident).None? ==> u.Resolution(gl) == u.Lookup(gl)
      ensures forall a :: a in attributes.Values && old(a.ident).Some? ==> a.ident == old(a.ident)
      ensures forall u :: u in uniforms.Values && old(u.ident).Some? ==> u.ident == old(u.ident)
    {
      gl.LinkProgram(handle);
      var linked := IsLinked(gl);
      if !linked {
        return Fail(LinkFailed(gl.programInfoLog(handle)));
      }
      o := Resolve(gl);
    }

    /** The rest of link once the program is linked: detach, then resolve. */
    method Resolve(gl: Gl) returns (o: Outcome)
      modifies gl`log, gl`attachments, this`attachedShaders
      modifies attributes.Values`ident, uniforms.Values`ident
      ensures attachedShaders == []
      ensures gl.log == old(gl.log) + DetachCalls(handle, old(attachedShaders))
      ensures gl.Attached(handle) == old(gl.Attached(handle)) - ShaderHandles(old(attachedShaders))
      ensures forall p :: p != handle ==> gl.Attached(p) == old(gl.Attached(p))
      ensures o.Pass? <==> && (forall a :: a in attributes.Values ==> a.Resolution(gl).Success?)
                           && (forall u :: u in uniforms.Values ==> u.Resolution(gl).Success?)
      ensures o.Pass? ==> && (forall a :: a in attributes.Values ==> a.ident.Some?)
                          && (forall u :: u in uniforms.Values ==> u.ident.Some?)
      ensures o.Fail? ==>
                || (exists a :: a in attributes.Values && a.Resolution(gl) == Failure(o.error))
                || (exists u :: u in uniforms.Values && u.Resolution(gl) == Failure(o.error))
      ensures (exists a :: a in attributes.Values && a.Resolution(gl).Failure?) ==>
                && o.Fail? && (exists a :: a in attributes.Values && a.Resolution(gl) == Failure(o.error))
                && (forall u :: u in uniforms.Values ==> u.ident == old(u.ident))
      ensures forall a :: a in attributes.Values ==> a.Resolution(gl) == old(a.Resolution(gl))
      ensures forall u :: u in uniforms.Values ==> u.Resolution(gl) == old(u.Resolution(gl))
      ensures forall a :: a in attributes.Values && old(a.ident).Some? ==> a.ident == old(a.ident)
      ensures forall u :: u in uniforms.Values && old(u.ident).Some? ==> u.ident == old(u.ident)
    {
      DetachShaders(gl);
      o := LookupBindings(gl);
    }

    /** lookupAttributes, then lookupUniforms unless an attribute threw. */
    method LookupBindings(gl: Gl) returns (o: Outcome)
      modifies attributes.Values`ident, uniforms.Values`ident
      ensures o.Pass? <==> && (forall a :: a in attributes.Values ==> a.Resolution(gl).Success?)
                           && (forall u :: u in uniforms.Values ==> u.Resolution(gl).Success?)
      ensures o.Pass? ==> && (forall a :: a in attributes.Values ==> a.ident.Some?)
                          && (forall u :: u in uniforms.Values ==> u.ident.Some?)
      ensures o.Fail? ==>
                || (exists a :: a in attributes.Values && a.Resolution(gl) == Failure(o.error))
                || (exists u :: u in uniforms.Values && u.Resolution(gl) == Failure(o.error))
      ensures (exists a :: a in attributes.Values && a.Resolution(gl).Failure?) ==>
                && o.Fail? && (exists a :: a in attributes.Values && a.Resolution(gl) == Failure(o.error))
                && (forall u :: u in uniforms.Values ==> u.ident == old(u.ident))
      ensures forall a :: a in attributes.Values ==> a.Resolution(gl) == old(a.Resolution(gl))
      ensures forall u :: u in uniforms.Values ==> u.Resolution(gl) == old(u.Resolution(gl))
      ensures forall a :: a in attributes.Values && old(a.ident).Some? ==> a.ident == old(a.ident)
      ensures forall u :: u in uniforms.Values && old(u.ident).Some? ==> u.ident == old(u.ident)
    {
      o := LookupAttributes(gl);
      if o.Fail? {
        return;
      }
      o := LookupUniforms(gl);
    }

    /** close: detach what is still attached, then glDeleteProgram. */
    method Close(gl: Gl)
      modifies gl`attachments, gl`log, this`attachedShaders
      ensures attachedShaders == []
      ensures gl.log == old(gl.log) + DetachCalls(handle, old(attachedShaders)) + [DeleteProgram(handle)]
      ensures gl.Attached(handle) == old(gl.Attached(handle)) - ShaderHandles(old(attachedShaders))
      ensures forall p :: p != handle ==> gl.Attached(p) == old(gl.Attached(p))
    {
      DetachShaders(gl);
      gl.Issue(DeleteProgram(handle));
    }
  }
}
