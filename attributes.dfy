/** Attribute.kt: a named vertex input of a program, with a lazily resolved,
    link-gated location. */
module Attributes {
  import opened Outcomes
  import opened Gl

  class Attribute {
    /** The handle of the owning program (the Kotlin field holds the Program). */
    const programHandle: int
    const name: string
    /** Fixed at construction; VBO.withAttribute compares it with the buffer's arity. */
    const arity: int
    /** The `ident by lazy` cache: None until resolved. */
    var ident: Option<int>

    constructor (programHandle: int, name: string, arity: int)
      ensures this.programHandle == programHandle && this.name == name && this.arity == arity
      ensures ident == None
    {
      this.programHandle := programHandle;
      this.name := name;
      this.arity := arity;
      ident := None;
    }

    /** The lazy initializer of `ident`: refused before link, then glGetAttribLocation. */
    function Lookup(gl: Gl): (r: Result<int>)
      reads gl`linked
    {
      if !gl.IsLinked(programHandle) then Failure(NotLinked)
      else
        var loc := gl.attribLocation(programHandle, name);
        if loc == -1 then Failure(InvalidAttribute(name)) else Success(loc)
    }

    /** What reading `ident` yields now: the cached location, or else the
        outcome of the lazy initializer. */
    function Resolution(gl: Gl): (r: Result<int>)
      reads this`ident, gl`linked
    {
      if ident.Some? then Success(ident.value) else Lookup(gl)
    }

    /** Reading `ident`: resolves on first success and caches; a cached value is
        returned without querying GL again. */
    method Ident(gl: Gl) returns (r: Result<int>)
      modifies this`ident
      ensures r == old(Resolution(gl))
      ensures old(ident).Some? ==> ident == old(ident)
      ensures ident == if r.Success? then Some(r.value) else None
      ensures Resolution(gl) == old(Resolution(gl))
    {
      if ident.Some? {
        return Success(ident.value);
      }
      if !gl.IsLinked(programHandle) {
        return Failure(NotLinked);
      }
      var loc := gl.attribLocation(programHandle, name);
      if loc == -1 {
        return Failure(InvalidAttribute(name));
      }
      ident := Some(loc);
      r := Success(loc);
    }

    /** enable: glEnableVertexAttribArray(ident). */
    method Enable(gl: Gl) returns (o: Outcome)
      modifies this`ident, gl`log
      ensures var res := old(Resolution(gl));
              && (res.Failure? ==> o == Fail(res.error) && gl.log == old(gl.log))
              && (res.Success? ==> o == Pass && gl.log == old(gl.log) + [EnableAttribArray(res.value)])
      ensures Resolution(gl) == old(Resolution(gl))
    {
      var r := Ident(gl);
      if r.Failure? {
        return Fail(r.error);
      }
      gl.Issue(EnableAttribArray(r.value));
      o := Pass;
    }

    /** disable: glDisableVertexAttribArray(ident). */
    method Disable(gl: Gl) returns (o: Outcome)
      modifies this`ident, gl`log
      ensures var res := old(Resolution(gl));
              && (res.Failure? ==> o == Fail(res.error) && gl.log == old(gl.log))
              && (res.Success? ==> o == Pass && gl.log == old(gl.log) + [DisableAttribArray(res.value)])
      ensures Resolution(gl) == old(Resolution(gl))
    {
      var r := Ident(gl);
      if r.Failure? {
        return Fail(r.error);
      }
      gl.Issue(DisableAttribArray(r.value));
      o := Pass;
    }
  }
}
